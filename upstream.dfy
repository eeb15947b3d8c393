/** The query string of the upstream streaming-search request
    (api/main.go:480-583): a fixed set of parameters, the correlation ids,
    the history length, the model selector, the sources collected by the
    uploads, the current turn (inline, or uploaded when it is long) and the
    history itself.

    Parameters are kept in the order the handler adds them. The values that
    are JSON documents (`sources` and `chat`) are kept as the typed values
    they encode; the identifiers and the timestamp are given by the caller. */
module Upstream {
  import opened Outcomes
  import opened Text
  import opened Messages
  import opened History
  import opened Externalise
  import opened ModelNames

  /** The query parameter names the handler uses. */
  datatype Key =
    | Page | Count | SafeSearch | Market | WorkflowGenerationUx | Domain
    | PersonalizationExtraction | QueryTraceId | ChatId | ConversationTurnId
    | PastChatLength | AgentClarificationQuestions | TraceId | NestedYouchatUpdates
    | SelectedChatMode | SelectedAiModel | Sources | Query | Chat

  /** The name each parameter has in the query string. */
  function KeyName(k: Key): string {
    match k
    case Page => "page"
    case Count => "count"
    case SafeSearch => "safeSearch"
    case Market => "mkt"
    case WorkflowGenerationUx => "enable_worklow_generation_ux"
    case Domain => "domain"
    case PersonalizationExtraction => "use_personalization_extraction"
    case QueryTraceId => "queryTraceId"
    case ChatId => "chatId"
    case ConversationTurnId => "conversationTurnId"
    case PastChatLength => "pastChatLength"
    case AgentClarificationQuestions => "enable_agent_clarification_questions"
    case TraceId => "traceId"
    case NestedYouchatUpdates => "use_nested_youchat_updates"
    case SelectedChatMode => "selectedChatMode"
    case SelectedAiModel => "selectedAiModel"
    case Sources => "sources"
    case Query => "q"
    case Chat => "chat"
  }

  /** A parameter value: plain text, or the JSON encoding of the sources or
      of the history. */
  datatype Value = Plain(text: string) | SourcesJson(sources: seq<Source>) | ChatJson(history: seq<ChatEntry>)

  datatype Param = Param(key: Key, value: Value)

  /** The identifiers drawn from the UUID generator, and the RFC 3339 time. */
  datatype Correlation = Correlation(chatId: string, turnId: string, timestamp: string)

  /** The trace id: chat id, turn id and time separated by "|". */
  function TraceIdOf(ids: Correlation): string {
    ids.chatId + "|" + ids.turnId + "|" + ids.timestamp
  }

  /** The first value given for `k` (`url.Values.Get`). */
  function Lookup(params: seq<Param>, k: Key): Option<Value>
    decreases |params|
  {
    if params == [] then None
    else if params[0].key == k then Some(params[0].value)
    else Lookup(params[1..], k)
  }

  /** How many times `k` is given. */
  function Occurrences(params: seq<Param>, k: Key): nat
    decreases |params|
  {
    if params == [] then 0
    else (if params[0].key == k then 1 else 0) + Occurrences(params[1..], k)
  }

  /** The parameters added before the model selector. */
  function BaseParams(history: seq<ChatEntry>, ids: Correlation): seq<Param> {
    [ Param(Page, Plain("1")), Param(Count, Plain("10")), Param(SafeSearch, Plain("Moderate")),
      Param(Market, Plain("zh-HK")), Param(WorkflowGenerationUx, Plain("true")),
      Param(Domain, Plain("youchat")), Param(PersonalizationExtraction, Plain("true")),
      Param(QueryTraceId, Plain(ids.chatId)), Param(ChatId, Plain(ids.chatId)),
      Param(ConversationTurnId, Plain(ids.turnId)),
      Param(PastChatLength, Plain(Decimal(|history|))),
      Param(AgentClarificationQuestions, Plain("true")), Param(TraceId, Plain(TraceIdOf(ids))),
      Param(NestedYouchatUpdates, Plain("true")) ]
  }

  /** The model selector: an agent id is the chat mode itself; any other
      model is mapped to an upstream model under the "custom" chat mode. */
  function SelectorParams(model: string, agentIds: seq<string>): seq<Param> {
    if IsAgentModel(agentIds, model) then [Param(SelectedChatMode, Plain(model))]
    else [Param(SelectedAiModel, Plain(MapModelName(model))), Param(SelectedChatMode, Plain("custom"))]
  }

  /** The parameters after the selector, once the turn is settled: the
      sources if there are any, the query text, then the history. */
  function TailParams(sources: seq<Source>, q: string, history: seq<ChatEntry>): seq<Param> {
    (if |sources| > 0 then [Param(Sources, SourcesJson(sources))] else [])
    + [Param(Query, Plain(q)), Param(Chat, ChatJson(history))]
  }

  /** The query string, given the (already rewritten) history and the sources
      of its uploads. A long current turn is uploaded as the next file and
      referred to by its placeholder; if that upload fails the request ends
      with the upload's error. */
  function BuildQuery(history: seq<ChatEntry>, sources: seq<Source>, last: Message, model: string,
                      agentIds: seq<string>, ids: Correlation, upload: Uploader): Result<seq<Param>>
  {
    var head := BaseParams(history, ids) + SelectorParams(model, agentIds);
    if TurnNeedsUpload(last.content) then
      var reply := ReplyFor(upload, |sources|, last.content);
      if reply.Uploaded? then
        Success(head + TailParams(sources + [SourceOf(reply, last.content)], Placeholder(reply.userFilename), history))
      else Failure(FailureMessage(reply))
    else Success(head + TailParams(sources, last.content, history))
  }

  /** The sources sent upstream: the history's uploads, then the turn's. */
  function AllSources(sources: seq<Source>, last: Message, upload: Uploader): seq<Source> {
    if TurnNeedsUpload(last.content) && ReplyFor(upload, |sources|, last.content).Uploaded? then
      sources + [SourceOf(ReplyFor(upload, |sources|, last.content), last.content)]
    else sources
  }

  /** No parameter name is given twice. */
  predicate DistinctKeys(params: seq<Param>) {
    forall i, j :: 0 <= i < j < |params| ==> params[i].key != params[j].key
  }

  predicate Absent(params: seq<Param>, k: Key) {
    forall i :: 0 <= i < |params| ==> params[i].key != k
  }

  lemma {:induction false} LookupAbsent(params: seq<Param>, k: Key)
    requires Absent(params, k)
    ensures Lookup(params, k) == None && Occurrences(params, k) == 0
    decreases |params|
  {
    if params != [] {
      LookupAbsent(params[1..], k);
    }
  }

  lemma {:induction false} LookupDistinct(params: seq<Param>, i: nat)
    requires DistinctKeys(params) && i < |params|
    ensures Lookup(params, params[i].key) == Some(params[i].value)
    ensures Occurrences(params, params[i].key) == 1
    decreases |params|
  {
    var k := params[i].key;
    if i == 0 {
      LookupAbsent(params[1..], k);
    } else {
      assert params[1..][i - 1] == params[i];
      LookupDistinct(params[1..], i - 1);
    }
  }

  /** With distinct names, every parameter is given at most once. */
  lemma OccursAtMostOnce(params: seq<Param>, k: Key)
    requires DistinctKeys(params)
    ensures Occurrences(params, k) <= 1
  {
    if i :| 0 <= i < |params| && params[i].key == k {
      LookupDistinct(params, i);
    } else {
      LookupAbsent(params, k);
    }
  }

  /** The query the handler sends when the turn is settled: `q` and the
      sources to send are known. */
  function QueryOf(history: seq<ChatEntry>, ids: Correlation, model: string, agentIds: seq<string>,
                   sources: seq<Source>, q: string): seq<Param> {
    BaseParams(history, ids) + SelectorParams(model, agentIds) + TailParams(sources, q, history)
  }

  /** The text sent as `q`. */
  function QueryText(sources: seq<Source>, last: Message, upload: Uploader): string {
    var reply := ReplyFor(upload, |sources|, last.content);
    if TurnNeedsUpload(last.content) && reply.Uploaded? then Placeholder(reply.userFilename)
    else last.content
  }

  /** `BuildQuery` fails exactly when a long turn's upload fails, and otherwise
      sends the query for all the sources and the turn's text. */
  lemma BuildQueryCases(history: seq<ChatEntry>, sources: seq<Source>, last: Message, model: string,
                        agentIds: seq<string>, ids: Correlation, upload: Uploader)
    ensures var r := BuildQuery(history, sources, last, model, agentIds, ids, upload);
      var reply := ReplyFor(upload, |sources|, last.content);
      && (r.Failure? <==> TurnNeedsUpload(last.content) && !reply.Uploaded?)
      && (r.Failure? ==> r.error == FailureMessage(reply))
      && (r.Success? ==> r.value == QueryOf(history, ids, model, agentIds,
                                            AllSources(sources, last, upload), QueryText(sources, last, upload)))
  {
  }

  lemma DistinctAppend(a: seq<Param>, b: seq<Param>)
    requires DistinctKeys(a) && DistinctKeys(b)
    requires forall i, j :: 0 <= i < |a| && 0 <= j < |b| ==> a[i].key != b[j].key
    ensures DistinctKeys(a + b)
  {
    var ab := a + b;
    forall i, j | 0 <= i < j < |ab|
      ensures ab[i].key != ab[j].key
    {
      if j < |a| {
        assert ab[i] == a[i] && ab[j] == a[j];
      } else if i < |a| {
        assert ab[i] == a[i] && ab[j] == b[j - |a|];
      } else {
        assert ab[i] == b[i - |a|] && ab[j] == b[j - |a|];
      }
    }
  }

  /** The keys of the fixed part, the selector and the tail. */
  predicate BaseKey(k: Key) {
    !(k in {SelectedChatMode, SelectedAiModel, Sources, Query, Chat})
  }

  lemma BaseDistinct(history: seq<ChatEntry>, ids: Correlation)
    ensures DistinctKeys(BaseParams(history, ids))
  {
    var p := BaseParams(history, ids);
    var keys := [Page, Count, SafeSearch, Market, WorkflowGenerationUx, Domain, PersonalizationExtraction,
                 QueryTraceId, ChatId, ConversationTurnId, PastChatLength, AgentClarificationQuestions,
                 TraceId, NestedYouchatUpdates];
    assert forall i :: 0 <= i < |p| ==> p[i].key == keys[i];
    forall i, j | 0 <= i < j < |p|
      ensures p[i].key != p[j].key
    {
      assert KeyIndex(keys[i]) == i && KeyIndex(keys[j]) == j;
    }
  }

  /** The position of a key in the order the handler adds parameters. */
  function KeyIndex(k: Key): nat {
    match k
    case Page => 0
    case Count => 1
    case SafeSearch => 2
    case Market => 3
    case WorkflowGenerationUx => 4
    case Domain => 5
    case PersonalizationExtraction => 6
    case QueryTraceId => 7
    case ChatId => 8
    case ConversationTurnId => 9
    case PastChatLength => 10
    case AgentClarificationQuestions => 11
    case TraceId => 12
    case NestedYouchatUpdates => 13
    case SelectedAiModel => 14
    case SelectedChatMode => 15
    case Sources => 16
    case Query => 17
    case Chat => 18
  }

  /** No parameter is given twice in any query the handler builds. */
  lemma QueryDistinct(history: seq<ChatEntry>, ids: Correlation, model: string, agentIds: seq<string>,
                      sources: seq<Source>, q: string)
    ensures DistinctKeys(QueryOf(history, ids, model, agentIds, sources, q))
  {
    var base, sel, tail := BaseParams(history, ids), SelectorParams(model, agentIds), TailParams(sources, q, history);
    BaseDistinct(history, ids);
    BaseKeys(history, ids);
    DistinctAppend(base, sel);
    DistinctAppend(base + sel, tail);
  }

  /** The fixed parameters open the query: the correlation ids, the history
      length and the trace id sit at their places. */
  lemma QueryBase(history: seq<ChatEntry>, ids: Correlation, model: string, agentIds: seq<string>,
                  sources: seq<Source>, q: string)
    ensures var p := QueryOf(history, ids, model, agentIds, sources, q);
      && |p| > 14
      && p[7] == Param(QueryTraceId, Plain(ids.chatId))
      && p[8] == Param(ChatId, Plain(ids.chatId))
      && p[9] == Param(ConversationTurnId, Plain(ids.turnId))
      && p[10] == Param(PastChatLength, Plain(Decimal(|history|)))
      && p[12] == Param(TraceId, Plain(TraceIdOf(ids)))
  {
    var base := BaseParams(history, ids);
    var rest := SelectorParams(model, agentIds) + TailParams(sources, q, history);
    assert QueryOf(history, ids, model, agentIds, sources, q) == base + rest;
  }

  /** The model selector follows them: an agent id gives the chat mode alone
      and no `selectedAiModel`; any other model gives the mapped upstream
      model, then the "custom" chat mode. */
  lemma QuerySelector(history: seq<ChatEntry>, ids: Correlation, model: string, agentIds: seq<string>,
                      sources: seq<Source>, q: string)
    ensures var p := QueryOf(history, ids, model, agentIds, sources, q);
      var agent := IsAgentModel(agentIds, model);
      var s := if agent then 15 else 16;
      && |p| > s
      && p[s - 1] == Param(SelectedChatMode, Plain(if agent then model else "custom"))
      && (!agent ==> p[14] == Param(SelectedAiModel, Plain(MapModelName(model))))
      && (agent ==> Absent(p, SelectedAiModel))
  {
    if IsAgentModel(agentIds, model) {
      AgentSelector(history, ids, model, agentIds, sources, q);
    } else {
      CustomSelector(history, ids, model, agentIds, sources, q);
    }
  }

  lemma AgentSelector(history: seq<ChatEntry>, ids: Correlation, model: string, agentIds: seq<string>,
                      sources: seq<Source>, q: string)
    requires IsAgentModel(agentIds, model)
    ensures var p := QueryOf(history, ids, model, agentIds, sources, q);
      && |p| > 15
      && p[14] == Param(SelectedChatMode, Plain(model))
      && Absent(p, SelectedAiModel)
  {
    var p := QueryOf(history, ids, model, agentIds, sources, q);
    var base := BaseParams(history, ids);
    var tail := TailParams(sources, q, history);
    assert p == base + ([Param(SelectedChatMode, Plain(model))] + tail);
    BaseKeys(history, ids);
    forall i | 0 <= i < |p|
      ensures p[i].key != SelectedAiModel
    {
      if i > 14 {
        assert p[i] == tail[i - 15];
      }
    }
  }

  lemma CustomSelector(history: seq<ChatEntry>, ids: Correlation, model: string, agentIds: seq<string>,
                       sources: seq<Source>, q: string)
    requires !IsAgentModel(agentIds, model)
    ensures var p := QueryOf(history, ids, model, agentIds, sources, q);
      && |p| > 16
      && p[14] == Param(SelectedAiModel, Plain(MapModelName(model)))
      && p[15] == Param(SelectedChatMode, Plain("custom"))
  {
    var base := BaseParams(history, ids);
    var sel := [Param(SelectedAiModel, Plain(MapModelName(model))), Param(SelectedChatMode, Plain("custom"))];
    var tail := TailParams(sources, q, history);
    assert QueryOf(history, ids, model, agentIds, sources, q) == base + (sel + tail);
    BaseKeys(history, ids);
  }

  /** The query ends with the sources (only when there are some), the text
      of the turn and the history. */
  lemma QueryTail(history: seq<ChatEntry>, ids: Correlation, model: string, agentIds: seq<string>,
                  sources: seq<Source>, q: string)
    ensures var p := QueryOf(history, ids, model, agentIds, sources, q);
      var s := if IsAgentModel(agentIds, model) then 15 else 16;
      var t := if |sources| > 0 then s + 1 else s;
      && |p| == t + 2
      && (|sources| > 0 ==> p[s] == Param(Sources, SourcesJson(sources)))
      && (|sources| == 0 ==> Absent(p, Sources))
      && p[t] == Param(Query, Plain(q))
      && p[t + 1] == Param(Chat, ChatJson(history))
  {
    var head := BaseParams(history, ids) + SelectorParams(model, agentIds);
    var tail := TailParams(sources, q, history);
    assert QueryOf(history, ids, model, agentIds, sources, q) == head + tail;
    if |sources| == 0 {
      BaseKeys(history, ids);
    }
  }

  /** The fourteen fixed parameters never carry the selector, the sources,
      the query or the history. */
  lemma BaseKeys(history: seq<ChatEntry>, ids: Correlation)
    ensures |BaseParams(history, ids)| == 14
    ensures forall k :: 0 <= k < 14 ==> BaseKey(BaseParams(history, ids)[k].key)
  {
  }


  /** What the upstream receives, parameter by parameter: no parameter twice;
      `sources` present iff there is a source, holding them in upload order;
      `q` the placeholder of the uploaded turn or else the turn's own text;
      `chat` the rewritten history and `pastChatLength` its length; the trace
      id; and the model selector. */
  lemma QueryParams(history: seq<ChatEntry>, sources: seq<Source>, last: Message, model: string,
                    agentIds: seq<string>, ids: Correlation, upload: Uploader)
    ensures var r := BuildQuery(history, sources, last, model, agentIds, ids, upload);
      var all := AllSources(sources, last, upload);
      var agent := IsAgentModel(agentIds, model);
      r.Success? ==>
        && (forall k :: Occurrences(r.value, k) <= 1)
        && (Lookup(r.value, Sources).Some? <==> |all| > 0)
        && (|all| > 0 ==> Lookup(r.value, Sources) == Some(SourcesJson(all)))
        && (TurnNeedsUpload(last.content) ==>
              Lookup(r.value, Query) == Some(Plain(Placeholder(ReplyFor(upload, |sources|, last.content).userFilename))))
        && (!TurnNeedsUpload(last.content) ==> Lookup(r.value, Query) == Some(Plain(last.content)))
        && Lookup(r.value, Chat) == Some(ChatJson(history))
        && Lookup(r.value, PastChatLength) == Some(Plain(Decimal(|history|)))
        && Lookup(r.value, TraceId) == Some(Plain(TraceIdOf(ids)))
        && Lookup(r.value, SelectedChatMode) == Some(Plain(if agent then model else "custom"))
        && Lookup(r.value, SelectedAiModel) == (if agent then None else Some(Plain(MapModelName(model))))
  {
    var r := BuildQuery(history, sources, last, model, agentIds, ids, upload);
    BuildQueryCases(history, sources, last, model, agentIds, ids, upload);
    if r.Success? {
      var all := AllSources(sources, last, upload);
      var q := QueryText(sources, last, upload);
      var p := r.value;
      var agent := IsAgentModel(agentIds, model);
      var s := if agent then 15 else 16;
      var t := if |all| > 0 then s + 1 else s;
      QueryBase(history, ids, model, agentIds, all, q);
      QuerySelector(history, ids, model, agentIds, all, q);
      QueryTail(history, ids, model, agentIds, all, q);
      QueryDistinct(history, ids, model, agentIds, all, q);
      forall k
        ensures Occurrences(p, k) <= 1
      {
        OccursAtMostOnce(p, k);
      }
      if |all| > 0 {
        LookupDistinct(p, s);
      } else {
        LookupAbsent(p, Sources);
      }
      LookupDistinct(p, t);
      LookupDistinct(p, t + 1);
      LookupDistinct(p, 10);
      LookupDistinct(p, 12);
      LookupDistinct(p, s - 1);
      if agent {
        LookupAbsent(p, SelectedAiModel);
      } else {
        LookupDistinct(p, 14);
      }
    }
  }
}
