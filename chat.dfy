/**
 * The chat server's state: the conversation history that every `/chat`
 * request extends and `/reset-memory` cuts back to the system message, and
 * the token log that `/usage-stats` folds into totals.
 *
 * The upstream completion call is a function parameter from the request to
 * its reply, the clock is a timestamp parameter, and the log file is an
 * optional sequence of entries (None while the file does not exist).
 */
module Chat {
  import opened Wrappers

  datatype Role = System | User | Assistant

  datatype Message = Message(role: Role, content: string)

  const SystemPrompt: string :=
    "You are the Scomaton. Model Cynasius. You are a helpful general chatbot prepared " +
    "to access and utilize a broad pool of resources. Your function is to assist Dillon " +
    "Carey, a young tech professional who is an AI/ML Engineer and Software Developer. " +
    "You should be professional in your responses but not overly formal. Admit fault and " +
    "error but do not make it. Be direct, insightful and proactive. Be prepared to organize, " +
    "analyze, and act on personal data. Refer to him by his last name and the title Director " +
    "unless otherwise prompted, as he directs the design of his profession and person " +
    "(a design director)."

  const SystemMessage: Message := Message(System, SystemPrompt)

  const UpstreamModel: string := "llama3-70b-8192"
  const Temperature: real := 0.7
  const DefaultMaxTokens: int := 1000

  const PromptTokensKey: string := "prompt_tokens"
  const CompletionTokensKey: string := "completion_tokens"
  const TotalTokensKey: string := "total_tokens"

  /** The body of a `/chat` request; `max_tokens` defaults to 1000. */
  datatype ChatInput = ChatInput(prompt: string, maxTokens: int)

  function NewChatInput(prompt: string): (c: ChatInput)
    ensures c.prompt == prompt && c.maxTokens == 1000
  {
    ChatInput(prompt, DefaultMaxTokens)
  }

  /** What is sent upstream: the whole history, the token cap and the sampling settings. */
  datatype Request = Request(model: string, messages: seq<Message>, maxTokens: int, temperature: real)

  /**
   * The `usage` member of a completion body: missing, an object of counts, or
   * some other JSON value (`null`, say), which has no `.get`.
   */
  datatype UsageField = Missing | Object(fields: map<string, int>) | NotAnObject

  /**
   * The parts of a well-formed completion body the server reads: the first
   * choice's message content and the `usage` member.
   */
  datatype ReplyBody = ReplyBody(content: string, usage: UsageField)

  /**
   * The outcome of the upstream POST: a reply (`body` is None when it lacks
   * the first choice's content), or a request that raised before any reply
   * arrived (a connection error, say).
   */
  datatype Response =
    | Reply(status: int, text: string, body: Option<ReplyBody>)
    | ConnectionFailed

  /** The errors a `/chat` request ends in. */
  datatype ChatError =
    | HttpError(status: int, detail: string)  // raised explicitly for a non-200 reply
    | MalformedReply                            // a lookup in the reply body fails
    | RequestFailed                             // the POST itself raises
    | UsageNotReadable                          // `usage.get` raises on a non-object `usage`

  /** The token counts of one request, as returned to the caller and logged. */
  datatype TokenCounts = TokenCounts(prompt: int, completion: int, total: int)

  datatype ChatReply = ChatReply(response: string, tokens: TokenCounts)

  /** One line of the token log: a timestamp and the numeric fields it carries. */
  datatype LogEntry = LogEntry(timestamp: string, fields: map<string, int>)

  datatype UsageStats = UsageStats(promptTokens: int, completionTokens: int, totalTokens: int, requestCount: int)

  // ---------------------------------------------------------------------
  // Dictionary lookups with a default, and str.strip
  // ---------------------------------------------------------------------

  /** `d.get(key, 0)`. */
  function Get(d: map<string, int>, key: string): (v: int)
    ensures key in d ==> v == d[key]
    ensures key !in d ==> v == 0
  {
    if key in d then d[key] else 0
  }

  /** The usage counts of a reply: a missing `usage` object or field counts 0. */
  function UsageOf(usage: Option<map<string, int>>): (t: TokenCounts)
    ensures usage.None? ==> t == TokenCounts(0, 0, 0)
    ensures usage.Some? && PromptTokensKey in usage.value ==> t.prompt == usage.value[PromptTokensKey]
    ensures usage.Some? && CompletionTokensKey in usage.value ==> t.completion == usage.value[CompletionTokensKey]
    ensures usage.Some? && TotalTokensKey in usage.value ==> t.total == usage.value[TotalTokensKey]
  {
    var u := usage.GetOr(map[]);
    TokenCounts(Get(u, PromptTokensKey), Get(u, CompletionTokensKey), Get(u, TotalTokensKey))
  }

  /** The log line written for one request. */
  function EntryOf(timestamp: string, t: TokenCounts): (e: LogEntry)
    ensures e.timestamp == timestamp
    ensures e.fields.Keys == {PromptTokensKey, CompletionTokensKey, TotalTokensKey}
    ensures TokensOf(e) == t
  {
    LogEntry(timestamp, map[PromptTokensKey := t.prompt, CompletionTokensKey := t.completion, TotalTokensKey := t.total])
  }

  /** The counts `usage_stats` reads from one log line, 0 for a missing field. */
  function TokensOf(e: LogEntry): TokenCounts
  {
    TokenCounts(Get(e.fields, PromptTokensKey), Get(e.fields, CompletionTokensKey), Get(e.fields, TotalTokensKey))
  }

  /** The characters Python's `str.isspace` accepts. */
  predicate IsSpace(c: char)
  {
    c == ' ' || '\t' <= c <= '\r' || '\U{1c}' <= c <= '\U{1f}' || c == '\U{85}' || c == '\U{a0}' ||
    c == '\U{1680}' || '\U{2000}' <= c <= '\U{200a}' || c == '\U{2028}' || c == '\U{2029}' ||
    c == '\U{202f}' || c == '\U{205f}' || c == '\U{3000}'
  }

  /** The first position at or after i that holds no whitespace, or |s|. */
  function SkipSpace(s: string, i: nat): (j: nat)
    requires i <= |s|
    ensures i <= j <= |s|
    ensures forall k :: i <= k < j ==> IsSpace(s[k])
    ensures j < |s| ==> !IsSpace(s[j])
    decreases |s| - i
  {
    if i < |s| && IsSpace(s[i]) then SkipSpace(s, i + 1) else i
  }

  /** The end of s[lo..e] once its trailing whitespace is cut. */
  function TrimEnd(s: string, lo: nat, e: nat): (j: nat)
    requires lo <= e <= |s|
    ensures lo <= j <= e
    ensures forall k :: j <= k < e ==> IsSpace(s[k])
    ensures j > lo ==> !IsSpace(s[j - 1])
  {
    if e > lo && IsSpace(s[e - 1]) then TrimEnd(s, lo, e - 1) else e
  }

  /** r is the run of s starting at i, with only whitespace on either side of it. */
  predicate StripsTo(s: string, i: int, r: string)
  {
    0 <= i <= |s| - |r| && r == s[i..i + |r|] &&
    (forall k :: 0 <= k < i ==> IsSpace(s[k])) &&
    (forall k :: i + |r| <= k < |s| ==> IsSpace(s[k]))
  }

  /**
   * `str.strip()`: the run of s left once the whitespace is cut from both
   * ends; it neither starts nor ends with whitespace.
   */
  function Strip(s: string): (r: string)
    ensures exists i :: StripsTo(s, i, r)
    ensures r == [] || (!IsSpace(r[0]) && !IsSpace(r[|r| - 1]))
  {
    var lo := SkipSpace(s, 0);
    var hi := TrimEnd(s, lo, |s|);
    assert StripsTo(s, lo, s[lo..hi]);
    s[lo..hi]
  }

  /** Stripping a stripped string changes nothing. */
  lemma StripIdempotent(s: string)
    ensures Strip(Strip(s)) == Strip(s)
  {
    var r := Strip(s);
    if r != [] {
      assert SkipSpace(r, 0) == 0;
      assert TrimEnd(r, 0, |r|) == |r|;
    }
    assert r[0..|r|] == r;
  }

  // ---------------------------------------------------------------------
  // Usage accounting
  // ---------------------------------------------------------------------

  const NoUsage: UsageStats := UsageStats(0, 0, 0, 0)

  /** The totals after counting one more request with the given tokens. */
  function AddRequest(s: UsageStats, t: TokenCounts): UsageStats
  {
    UsageStats(s.promptTokens + t.prompt, s.completionTokens + t.completion, s.totalTokens + t.total, s.requestCount + 1)
  }

  /** The totals over the log lines, read front to back. */
  function Totals(entries: seq<LogEntry>): (s: UsageStats)
    ensures s.requestCount == |entries|
  {
    if |entries| == 0 then NoUsage
    else AddRequest(Totals(entries[..|entries| - 1]), TokensOf(entries[|entries| - 1]))
  }

  /** What `/usage-stats` reports for the log, all zeros when there is no log file. */
  function Stats(log: Option<seq<LogEntry>>): (s: UsageStats)
    ensures log.None? ==> s == NoUsage
    ensures s.requestCount == |log.GetOr([])|
  {
    match log
    case None => NoUsage
    case Some(entries) => Totals(entries)
  }

  function Sum(a: UsageStats, b: UsageStats): UsageStats
  {
    UsageStats(a.promptTokens + b.promptTokens, a.completionTokens + b.completionTokens,
               a.totalTokens + b.totalTokens, a.requestCount + b.requestCount)
  }

  /** The totals of two stretches of log add up. */
  lemma {:induction false} TotalsConcat(a: seq<LogEntry>, b: seq<LogEntry>)
    ensures Totals(a + b) == Sum(Totals(a), Totals(b))
  {
    if |b| > 0 {
      var b' := b[..|b| - 1];
      assert (a + b)[..|a + b| - 1] == a + b';
      assert (a + b)[|a + b| - 1] == b[|b| - 1];
      TotalsConcat(a, b');
    } else {
      assert a + b == a;
    }
  }

  /** The sum of one numeric field over the lines, read head first, 0 where it is missing. */
  function FieldSum(entries: seq<LogEntry>, key: string): int
  {
    if |entries| == 0 then 0 else Get(entries[0].fields, key) + FieldSum(entries[1..], key)
  }

  /** Reading the last line separately: its field adds to the sum over the rest. */
  lemma {:induction false} FieldSumSnoc(entries: seq<LogEntry>, e: LogEntry, key: string)
    ensures FieldSum(entries + [e], key) == FieldSum(entries, key) + Get(e.fields, key)
  {
    if |entries| > 0 {
      assert (entries + [e])[1..] == entries[1..] + [e];
      FieldSumSnoc(entries[1..], e, key);
    } else {
      assert (entries + [e])[1..] == [];
    }
  }

  /** Each counter of the totals is the sum of its field over all lines. */
  lemma {:induction false} TotalsAreFieldSums(entries: seq<LogEntry>)
    ensures Totals(entries).promptTokens == FieldSum(entries, PromptTokensKey)
    ensures Totals(entries).completionTokens == FieldSum(entries, CompletionTokensKey)
    ensures Totals(entries).totalTokens == FieldSum(entries, TotalTokensKey)
  {
    if |entries| > 0 {
      var front, last := entries[..|entries| - 1], entries[|entries| - 1];
      assert entries == front + [last];
      TotalsAreFieldSums(front);
      FieldSumSnoc(front, last, PromptTokensKey);
      FieldSumSnoc(front, last, CompletionTokensKey);
      FieldSumSnoc(front, last, TotalTokensKey);
    }
  }

  // ---------------------------------------------------------------------
  // The server
  // ---------------------------------------------------------------------

  /** `conversation_history[:1]`: at most the first message survives. */
  function FirstOnly(h: seq<Message>): (r: seq<Message>)
    ensures |r| == if |h| == 0 then 0 else 1
    ensures r <= h
  {
    if |h| == 0 then [] else h[..1]
  }

  /** Truncating twice is truncating once. */
  lemma FirstOnlyIdempotent(h: seq<Message>)
    ensures FirstOnly(FirstOnly(h)) == FirstOnly(h)
  {
  }

  class ChatService {
    var history: seq<Message>
    var log: Option<seq<LogEntry>>

    /** The history always begins with the system message. */
    predicate Valid()
      reads this
    {
      |history| >= 1 && history[0] == SystemMessage
    }

    /** A fresh server: the history is the system message alone. */
    constructor(existingLog: Option<seq<LogEntry>>)
      ensures history == [SystemMessage] && log == existingLog
      ensures Valid()
    {
      history := [SystemMessage];
      log := existingLog;
    }

    /**
     * `/chat`: the user's prompt joins the history before the upstream call;
     * a POST that raises, or a non-200 reply (turned into a 500 carrying the
     * reply text), ends the request with the prompt left in the history and
     * no log line; otherwise the stripped answer joins the history, and then
     * either a `usage` that is not an object makes the request fail with no
     * log line, or one log line records the reply's token counts and the same
     * counts are returned.
     */
    method Chat(input: ChatInput, post: Request -> Response, now: string) returns (r: Result<ChatReply, ChatError>)
      modifies this
      ensures var asked := old(history) + [Message(User, input.prompt)];
        var reply := post(Request(UpstreamModel, asked, input.maxTokens, Temperature));
        && (reply.ConnectionFailed? ==>
              r == Failure(RequestFailed) && history == asked && log == old(log))
        && (reply.Reply? && reply.status != 200 ==>
              r == Failure(HttpError(500, reply.text)) && history == asked && log == old(log))
        && (reply.Reply? && reply.status == 200 && reply.body.None? ==>
              r == Failure(MalformedReply) && history == asked && log == old(log))
        && (reply.Reply? && reply.status == 200 && reply.body.Some? && reply.body.value.usage.NotAnObject? ==>
              && r == Failure(UsageNotReadable)
              && history == asked + [Message(Assistant, Strip(reply.body.value.content))]
              && log == old(log))
        && (reply.Reply? && reply.status == 200 && reply.body.Some? && !reply.body.value.usage.NotAnObject? ==>
              var answer := Strip(reply.body.value.content);
              var usage := reply.body.value.usage;
              var tokens := UsageOf(if usage.Object? then Some(usage.fields) else None);
              && r == Success(ChatReply(answer, tokens))
              && history == asked + [Message(Assistant, answer)]
              && log == Some(old(log).GetOr([]) + [EntryOf(now, tokens)]))
      ensures old(Valid()) ==> Valid()
    {
      history := history + [Message(User, input.prompt)];
      var reply := post(Request(UpstreamModel, history, input.maxTokens, Temperature));
      if reply.ConnectionFailed? {
        return Failure(RequestFailed);
      }
      if reply.status != 200 {
        return Failure(HttpError(500, reply.text));
      }
      if reply.body.None? {
        return Failure(MalformedReply);
      }
      var answer := Strip(reply.body.value.content);
      history := history + [Message(Assistant, answer)];
      var usage := reply.body.value.usage;
      if usage.NotAnObject? {
        return Failure(UsageNotReadable);
      }
      var tokens := UsageOf(if usage.Object? then Some(usage.fields) else None);
      log := Some(log.GetOr([]) + [EntryOf(now, tokens)]);
      r := Success(ChatReply(answer, tokens));
    }

    /** `/usage-stats`: the four counters folded over the log, line by line. */
    method UsageStatistics() returns (s: UsageStats)
      ensures s == Stats(log)
    {
      if log.None? {
        return NoUsage;
      }
      var entries := log.value;
      var prompt, completion, total, count := 0, 0, 0, 0;
      var i := 0;
      while i < |entries|
        invariant i <= |entries|
        invariant UsageStats(prompt, completion, total, count) == Totals(entries[..i])
      {
        assert entries[..i + 1][..i] == entries[..i];
        var fields := entries[i].fields;
        prompt := prompt + Get(fields, PromptTokensKey);
        completion := completion + Get(fields, CompletionTokensKey);
        total := total + Get(fields, TotalTokensKey);
        count := count + 1;
        i := i + 1;
      }
      assert entries[..i] == entries;
      s := UsageStats(prompt, completion, total, count);
    }

    /** `/reset-memory`: the history is cut back to its first message. */
    method ResetMemory() returns (message: string)
      modifies this
      ensures history == FirstOnly(old(history)) && log == old(log)
      ensures old(Valid()) ==> history == [SystemMessage]
      ensures message == "Memory cleared"
    {
      history := FirstOnly(history);
      message := "Memory cleared";
    }
  }

  /**
   * A successful request adds its own tokens, and one request, to what
   * `/usage-stats` reports, whether or not the log existed before.
   */
  lemma ChatAddsItsUsage(log: Option<seq<LogEntry>>, now: string, tokens: TokenCounts)
    ensures Stats(Some(log.GetOr([]) + [EntryOf(now, tokens)])) == AddRequest(Stats(log), tokens)
  {
    var entries := log.GetOr([]) + [EntryOf(now, tokens)];
    assert entries[..|entries| - 1] == log.GetOr([]);
    assert Totals(entries) == AddRequest(Totals(log.GetOr([])), tokens);
    if log.None? {
      assert Totals([]) == NoUsage;
    }
  }
}
