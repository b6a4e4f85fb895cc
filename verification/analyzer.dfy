/**
 `DataAnalyzer`: turning a dataset summary into insight text with a language
 model, and the read-through cache around it.

 The model call (`INSIGHTS_PROMPT | llm`, run as the single node of a
 LangGraph workflow) is a `Generator`: a function from the three prompt
 fields to what one invocation produced. The graph's `insights` channel
 has `operator.add` as reducer and starts empty, so the workflow's result
 is the node's text unchanged.
 */
module Analyzer {
  import opened Base
  import opened InsightStore
  import opened DataProcessor

  /**
   What a model returns: a chat message with a `content` attribute (the
   Gemini backend) or any other object, shown through `str(result)` (the
   Ollama backend returns a plain string, whose `str` is itself).
   */
  datatype Reply = Message(content: string) | Other(shown: string)

  /** One invocation of the prompt chain: a reply, or the exception's text. */
  datatype Invocation = Returned(reply: Reply) | Raised(error: string)

  /** The model behind the chain, applied to the prompt inputs. */
  type Generator = DatasetInfo -> Invocation

  const ErrorPrefix := "Error generating insights: "

  /** The result of `analyze_with_caching`, with the number of model invocations it made. */
  datatype Analysis = Analysis(insights: string, store: Store, generatorCalls: nat)

  /**
   The `generate_insights` node: normalise the reply to text, or turn a
   raised exception into text that starts with `ErrorPrefix`. It never raises.
   */
  function GenerateInsights(inv: Invocation): (text: string)
    ensures inv.Raised? ==> text == ErrorPrefix + inv.error
    ensures inv.Returned? && inv.reply.Message? ==> text == inv.reply.content
    ensures inv.Returned? && inv.reply.Other? ==> text == inv.reply.shown
  {
    match inv
    case Raised(e) => ErrorPrefix + e
    case Returned(Message(c)) => c
    case Returned(Other(s)) => s
  }

  /** Error text is never empty, so a failed generation still counts as a cache hit later. */
  lemma ErrorTextNonEmpty(inv: Invocation)
    requires inv.Raised?
    ensures |GenerateInsights(inv)| >= |ErrorPrefix| > 0
    ensures GenerateInsights(inv)[..|ErrorPrefix|] == ErrorPrefix
  {
  }

  /**
   `analyze`: the model sees exactly the `columns`, `stats_summary` and
   `data_sample` fields; the result is the `insights` field.
   */
  function Analyze(info: DatasetInfo, gen: Generator): (text: string)
    ensures text == GenerateInsights(gen(DatasetInfo(info.columns, info.statsSummary, info.dataSample)))
  {
    GenerateInsights(gen(DatasetInfo(info.columns, info.statsSummary, info.dataSample)))
  }

  /** `if cached_insights:`: a stored text counts only when it is non-empty. */
  predicate Cached(s: Store, key: string)
  {
    Load(s, key).Some? && Load(s, key).value != ""
  }

  /**
   `analyze_with_caching`. A non-empty stored text is returned without
   calling the model and without writing. Otherwise the model runs once,
   its text is saved under `key` and returned; whether the save succeeded
   does not matter.
   */
  function AnalyzeWithCaching(s: Store, info: DatasetInfo, key: string, gen: Generator): (r: Analysis)
    ensures Cached(s, key) ==> r == Analysis(s.entries[key], s, 0)
    ensures !Cached(s, key) ==> r.generatorCalls == 1 && r.insights == Analyze(info, gen)
    ensures !Cached(s, key) && s.health == Ready ==> Load(r.store, key) == Some(r.insights)
    ensures s.health != Ready ==> r.store == s
    ensures forall k :: k != key ==> Load(r.store, k) == Load(s, k)
    ensures r.store.health == s.health
  {
    var cached := Load(s, key);
    if cached.Some? && cached.value != "" then
      Analysis(cached.value, s, 0)
    else
      var insights := Analyze(info, gen);
      var saved := Save(s, key, insights);
      Analysis(insights, saved.store, 1)
  }

  /**
   After one call with a working store, a second call with the same key
   returns the same text, calls nothing and writes nothing, whatever data
   and model it is given, provided the first text was not empty.
   */
  lemma SecondCallHits(s: Store, info: DatasetInfo, info': DatasetInfo, key: string, gen: Generator, gen': Generator)
    requires s.health == Ready
    requires Cached(s, key) || Analyze(info, gen) != ""
    ensures var first := AnalyzeWithCaching(s, info, key, gen);
            var second := AnalyzeWithCaching(first.store, info', key, gen');
            second == Analysis(first.insights, first.store, 0)
  {
  }

  /** An empty generated text is stored but regenerated on the next call. */
  lemma EmptyTextRegenerates(s: Store, info: DatasetInfo, key: string, gen: Generator)
    requires !Cached(s, key) && Analyze(info, gen) == ""
    ensures var first := AnalyzeWithCaching(s, info, key, gen);
            AnalyzeWithCaching(first.store, info, key, gen).generatorCalls == 1
  {
  }

  /** A failing model's message is cached like an insight and served from then on. */
  lemma FailureTextIsCached(s: Store, info: DatasetInfo, key: string, gen: Generator, message: string)
    requires s.health == Ready && !Cached(s, key)
    requires gen(info) == Raised(message)
    ensures AnalyzeWithCaching(s, info, key, gen).insights == ErrorPrefix + message
    ensures Load(AnalyzeWithCaching(s, info, key, gen).store, key) == Some(ErrorPrefix + message)
    ensures Cached(AnalyzeWithCaching(s, info, key, gen).store, key)
  {
  }

  /** With the store down every call generates, and nothing is remembered. */
  lemma OutageAlwaysGenerates(s: Store, info: DatasetInfo, key: string, gen: Generator)
    requires s.health != Ready
    ensures AnalyzeWithCaching(s, info, key, gen) == Analysis(Analyze(info, gen), s, 1)
  {
  }

  /** Requests handled one after another, all under one key, each seeing the previous store. */
  function Session(s: Store, requests: seq<DatasetInfo>, key: string, gen: Generator): (outs: seq<Analysis>)
    ensures |outs| == |requests|
    decreases |requests|
  {
    if |requests| == 0 then []
    else
      var first := AnalyzeWithCaching(s, requests[0], key, gen);
      [first] + Session(first.store, requests[1..], key, gen)
  }

  function TotalCalls(outs: seq<Analysis>): nat
    decreases |outs|
  {
    if |outs| == 0 then 0 else outs[0].generatorCalls + TotalCalls(outs[1..])
  }

  /** Once a non-empty text is cached, no request under that key generates. */
  lemma {:induction false} CachedSessionIsFree(s: Store, requests: seq<DatasetInfo>, key: string, gen: Generator)
    requires Cached(s, key)
    ensures TotalCalls(Session(s, requests, key, gen)) == 0
    ensures forall i :: 0 <= i < |requests| ==> Session(s, requests, key, gen)[i] == Analysis(s.entries[key], s, 0)
    decreases |requests|
  {
    if |requests| > 0 {
      CachedSessionIsFree(s, requests[1..], key, gen);
    }
  }

  /**
   Over any number of requests under one key with a working store, the
   model runs at most once, and every request gets the first one's text,
   provided that text is not empty.
   */
  lemma {:induction false} OnlyFirstRequestGenerates(s: Store, requests: seq<DatasetInfo>, key: string, gen: Generator)
    requires s.health == Ready && |requests| >= 1
    requires Cached(s, key) || Analyze(requests[0], gen) != ""
    ensures TotalCalls(Session(s, requests, key, gen)) <= 1
    ensures forall i :: 0 <= i < |requests| ==>
      Session(s, requests, key, gen)[i].insights == Session(s, requests, key, gen)[0].insights
  {
    var first := AnalyzeWithCaching(s, requests[0], key, gen);
    assert Cached(first.store, key);
    assert first.store.entries[key] == first.insights;
    CachedSessionIsFree(first.store, requests[1..], key, gen);
    var outs := Session(s, requests, key, gen);
    assert outs == [first] + Session(first.store, requests[1..], key, gen);
    assert outs[1..] == Session(first.store, requests[1..], key, gen);
  }
}
