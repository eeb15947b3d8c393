/** The public-to-upstream model name table, its inverse, the agent-model
    selector and the cookie jar sent upstream (api/main.go:48-55, 137-196,
    662-673). */
module ModelNames {

  /** `modelMap`: public model name to upstream model name. */
  function ModelMap(): map<string, string> {
    map[
      "deepseek_r1" := "deepseek_r1",
      "deepseek_v3" := "deepseek_v3",
      "o3-mini-high" := "openai_o3_mini_high",
      "o3-mini-medium" := "openai_o3_mini_medium",
      "o1" := "openai_o1",
      "o1-mini" := "openai_o1_mini",
      "o1-preview" := "openai_o1_preview",
      "gpt-4o" := "gpt_4o",
      "gpt-4o-mini" := "gpt_4o_mini",
      "gpt-4-turbo" := "gpt_4_turbo",
      "gpt-4" := "gpt_4",
      "gpt-4.5-preview" := "gpt_4_5_preview",
      "claude-3-opus" := "claude_3_opus",
      "claude-3-sonnet" := "claude_3_sonnet",
      "claude-3.5-sonnet" := "claude_3_5_sonnet",
      "claude-3.5-haiku" := "claude_3_5_haiku",
      "claude-3-7-sonnet" := "claude_3_7_sonnet",
      "claude-3-7-sonnet-think" := "claude_3_7_sonnet_thinking",
      "gemini-1.5-pro" := "gemini_1_5_pro",
      "gemini-1.5-flash" := "gemini_1_5_flash",
      "gemini-2.5-pro" := "gemini_2_5_pro_experimental",
      "gemini-2.0-flash" := "gemini_2_0_flash",
      "llama-3.2-90b" := "llama3_2_90b",
      "llama-3.1-405b" := "llama3_1_405b",
      "mistral-large-2" := "mistral_large_2",
      "qwen-2.5-72b" := "qwen2p5_72b",
      "qwen-2.5-coder-32b" := "qwen2p5_coder_32b",
      "qwq-32b" := "qwq_32b",
      "command-r-plus" := "command_r_plus",
      "Solar 1 Mini" := "solar_1_mini"
    ]
  }

  /** Fallback upstream model for a public name outside the table. */
  const DefaultUpstreamModel: string := "deepseek_v3"

  /** Fallback public name for an upstream name outside the reverse table. */
  const DefaultPublicModel: string := "deepseek-chat"

  /** The table read backwards, written out entry by entry. It serves only
      as the witness that the table is injective (`ModelMapInjective`); the
      inverse `getReverseModelMap` builds is `ReverseModelMap`. */
  function ReverseTable(): map<string, string> {
    map[
      "deepseek_r1" := "deepseek_r1",
      "deepseek_v3" := "deepseek_v3",
      "openai_o3_mini_high" := "o3-mini-high",
      "openai_o3_mini_medium" := "o3-mini-medium",
      "openai_o1" := "o1",
      "openai_o1_mini" := "o1-mini",
      "openai_o1_preview" := "o1-preview",
      "gpt_4o" := "gpt-4o",
      "gpt_4o_mini" := "gpt-4o-mini",
      "gpt_4_turbo" := "gpt-4-turbo",
      "gpt_4" := "gpt-4",
      "gpt_4_5_preview" := "gpt-4.5-preview",
      "claude_3_opus" := "claude-3-opus",
      "claude_3_sonnet" := "claude-3-sonnet",
      "claude_3_5_sonnet" := "claude-3.5-sonnet",
      "claude_3_5_haiku" := "claude-3.5-haiku",
      "claude_3_7_sonnet" := "claude-3-7-sonnet",
      "claude_3_7_sonnet_thinking" := "claude-3-7-sonnet-think",
      "gemini_1_5_pro" := "gemini-1.5-pro",
      "gemini_1_5_flash" := "gemini-1.5-flash",
      "gemini_2_5_pro_experimental" := "gemini-2.5-pro",
      "gemini_2_0_flash" := "gemini-2.0-flash",
      "llama3_2_90b" := "llama-3.2-90b",
      "llama3_1_405b" := "llama-3.1-405b",
      "mistral_large_2" := "mistral-large-2",
      "qwen2p5_72b" := "qwen-2.5-72b",
      "qwen2p5_coder_32b" := "qwen-2.5-coder-32b",
      "qwq_32b" := "qwq-32b",
      "command_r_plus" := "command-r-plus",
      "solar_1_mini" := "Solar 1 Mini"
    ]
  }

  /** The public name `model` is what the written-out inverse gives back for
      its upstream name. */
  predicate ReadsBack(model: string) {
    model in ModelMap() && ModelMap()[model] in ReverseTable() && ReverseTable()[ModelMap()[model]] == model
  }

  lemma ReadsBack0()
    ensures ReadsBack("deepseek_r1")
  {
  }

  lemma ReadsBack1()
    ensures ReadsBack("deepseek_v3")
  {
  }

  lemma ReadsBack2()
    ensures ReadsBack("o3-mini-high")
  {
  }

  lemma ReadsBack3()
    ensures ReadsBack("o3-mini-medium")
  {
  }

  lemma ReadsBack4()
    ensures ReadsBack("o1")
  {
  }

  lemma ReadsBack5()
    ensures ReadsBack("o1-mini")
  {
  }

  lemma ReadsBack6()
    ensures ReadsBack("o1-preview")
  {
  }

  lemma ReadsBack7()
    ensures ReadsBack("gpt-4o")
  {
  }

  lemma ReadsBack8()
    ensures ReadsBack("gpt-4o-mini")
  {
  }

  lemma ReadsBack9()
    ensures ReadsBack("gpt-4-turbo")
  {
  }

  lemma ReadsBack10()
    ensures ReadsBack("gpt-4")
  {
  }

  lemma ReadsBack11()
    ensures ReadsBack("gpt-4.5-preview")
  {
  }

  lemma ReadsBack12()
    ensures ReadsBack("claude-3-opus")
  {
  }

  lemma ReadsBack13()
    ensures ReadsBack("claude-3-sonnet")
  {
  }

  lemma ReadsBack14()
    ensures ReadsBack("claude-3.5-sonnet")
  {
  }

  lemma ReadsBack15()
    ensures ReadsBack("claude-3.5-haiku")
  {
  }

  lemma ReadsBack16()
    ensures ReadsBack("claude-3-7-sonnet")
  {
  }

  lemma ReadsBack17()
    ensures ReadsBack("claude-3-7-sonnet-think")
  {
  }

  lemma ReadsBack18()
    ensures ReadsBack("gemini-1.5-pro")
  {
  }

  lemma ReadsBack19()
    ensures ReadsBack("gemini-1.5-flash")
  {
  }

  lemma ReadsBack20()
    ensures ReadsBack("gemini-2.5-pro")
  {
  }

  lemma ReadsBack21()
    ensures ReadsBack("gemini-2.0-flash")
  {
  }

  lemma ReadsBack22()
    ensures ReadsBack("llama-3.2-90b")
  {
  }

  lemma ReadsBack23()
    ensures ReadsBack("llama-3.1-405b")
  {
  }

  lemma ReadsBack24()
    ensures ReadsBack("mistral-large-2")
  {
  }

  lemma ReadsBack25()
    ensures ReadsBack("qwen-2.5-72b")
  {
  }

  lemma ReadsBack26()
    ensures ReadsBack("qwen-2.5-coder-32b")
  {
  }

  lemma ReadsBack27()
    ensures ReadsBack("qwq-32b")
  {
  }

  lemma ReadsBack28()
    ensures ReadsBack("command-r-plus")
  {
  }

  lemma ReadsBack29()
    ensures ReadsBack("Solar 1 Mini")
  {
  }

  /** The public names in six groups of five, in table order. */
  function Group0(): set<string> {
    {"deepseek_r1", "deepseek_v3", "o3-mini-high", "o3-mini-medium", "o1"}
  }

  function Group1(): set<string> {
    {"o1-mini", "o1-preview", "gpt-4o", "gpt-4o-mini", "gpt-4-turbo"}
  }

  function Group2(): set<string> {
    {"gpt-4", "gpt-4.5-preview", "claude-3-opus", "claude-3-sonnet", "claude-3.5-sonnet"}
  }

  function Group3(): set<string> {
    {"claude-3.5-haiku", "claude-3-7-sonnet", "claude-3-7-sonnet-think", "gemini-1.5-pro", "gemini-1.5-flash"}
  }

  function Group4(): set<string> {
    {"gemini-2.5-pro", "gemini-2.0-flash", "llama-3.2-90b", "llama-3.1-405b", "mistral-large-2"}
  }

  function Group5(): set<string> {
    {"qwen-2.5-72b", "qwen-2.5-coder-32b", "qwq-32b", "command-r-plus", "Solar 1 Mini"}
  }

  lemma GroupReadsBack0()
    ensures forall model :: model in Group0() ==> ReadsBack(model)
  {
    ReadsBack0();
    ReadsBack1();
    ReadsBack2();
    ReadsBack3();
    ReadsBack4();
  }

  lemma GroupReadsBack1()
    ensures forall model :: model in Group1() ==> ReadsBack(model)
  {
    ReadsBack5();
    ReadsBack6();
    ReadsBack7();
    ReadsBack8();
    ReadsBack9();
  }

  lemma GroupReadsBack2()
    ensures forall model :: model in Group2() ==> ReadsBack(model)
  {
    ReadsBack10();
    ReadsBack11();
    ReadsBack12();
    ReadsBack13();
    ReadsBack14();
  }

  lemma GroupReadsBack3()
    ensures forall model :: model in Group3() ==> ReadsBack(model)
  {
    ReadsBack15();
    ReadsBack16();
    ReadsBack17();
    ReadsBack18();
    ReadsBack19();
  }

  lemma GroupReadsBack4()
    ensures forall model :: model in Group4() ==> ReadsBack(model)
  {
    ReadsBack20();
    ReadsBack21();
    ReadsBack22();
    ReadsBack23();
    ReadsBack24();
  }

  lemma GroupReadsBack5()
    ensures forall model :: model in Group5() ==> ReadsBack(model)
  {
    ReadsBack25();
    ReadsBack26();
    ReadsBack27();
    ReadsBack28();
    ReadsBack29();
  }

  lemma GroupsCoverTable()
    ensures ModelMap().Keys == Group0() + Group1() + Group2() + Group3() + Group4() + Group5()
  {
  }

  /** Every public name reads back through the written-out inverse. */
  lemma ReadsBackAll()
    ensures forall model :: model in ModelMap() ==> ReadsBack(model)
  {
    GroupsCoverTable();
    GroupReadsBack0();
    GroupReadsBack1();
    GroupReadsBack2();
    GroupReadsBack3();
    GroupReadsBack4();
    GroupReadsBack5();
  }

  /** No two public names share an upstream name, so inverting the table
      loses nothing whatever order Go's map iteration visits it in. */
  lemma ModelMapInjective()
    ensures forall a, b :: a in ModelMap() && b in ModelMap() && a != b ==> ModelMap()[a] != ModelMap()[b]
  {
    ReadsBackAll();
  }

  /** `getReverseModelMap`: upstream model name back to public name. */
  function ReverseModelMap(): (r: map<string, string>)
    ensures r.Keys == ModelMap().Values
    ensures forall y :: y in r ==> r[y] in ModelMap() && ModelMap()[r[y]] == y
  {
    ModelMapInjective();
    var m := ModelMap();
    map k | k in m :: m[k] := k
  }

  /** `mapModelName`. */
  function MapModelName(model: string): string {
    if model in ModelMap() then ModelMap()[model] else DefaultUpstreamModel
  }

  /** `reverseMapModelName`. */
  function ReverseMapModelName(upstream: string): string {
    var reverse := ReverseModelMap();
    if upstream in reverse then reverse[upstream] else DefaultPublicModel
  }

  /** The forward map always yields an upstream name of the table: the
      fallback is itself a table value. */
  lemma MapModelNameInTable(model: string)
    ensures MapModelName(model) in ModelMap().Values
  {
    assert ModelMap()["deepseek_v3"] == DefaultUpstreamModel;
  }

  /** Round trip on the table: every public name survives mapping there and back. */
  lemma ReverseAfterMap(model: string)
    requires model in ModelMap()
    ensures ReverseMapModelName(MapModelName(model)) == model
  {
    ModelMapInjective();
    var y := ModelMap()[model];
    assert y in ModelMap().Values;
    var r := ReverseModelMap();
    assert y in r && ModelMap()[r[y]] == y;
  }

  /** Round trip the other way: every upstream name of the table survives
      mapping back and forth. */
  lemma MapAfterReverse(upstream: string)
    requires upstream in ModelMap().Values
    ensures MapModelName(ReverseMapModelName(upstream)) == upstream
  {
  }

  /** A public name outside the table comes back as the default model's own
      public name "deepseek_v3", never as "deepseek-chat". */
  lemma ReverseAfterMapUnknown(model: string)
    requires model !in ModelMap()
    ensures ReverseMapModelName(MapModelName(model)) == "deepseek_v3"
  {
    assert MapModelName(model) == DefaultUpstreamModel;
    DefaultReadsBack();
  }

  /** The fallback upstream name reads back as the public name "deepseek_v3". */
  lemma DefaultReadsBack()
    ensures ReverseMapModelName(DefaultUpstreamModel) == "deepseek_v3"
  {
    assert MapModelName("deepseek_v3") == DefaultUpstreamModel;
    ReverseAfterMap("deepseek_v3");
  }

  /** An upstream name outside the table's values falls back to "deepseek-chat". */
  lemma ReverseUnknown(upstream: string)
    requires upstream !in ModelMap().Values
    ensures ReverseMapModelName(upstream) == "deepseek-chat"
  {
  }

  /** The model name stamped into every response envelope
      (`reverseMapModelName(mapModelName(originalModel))`) is always a public
      name of the table: the requested one if it is in the table, otherwise
      "deepseek_v3". */
  lemma EnvelopeModelInTable(model: string)
    ensures ReverseMapModelName(MapModelName(model)) in ModelMap()
    ensures ReverseMapModelName(MapModelName(model)) == (if model in ModelMap() then model else "deepseek_v3")
  {
    if model in ModelMap() {
      ReverseAfterMap(model);
    } else {
      ReverseAfterMapUnknown(model);
    }
  }

  /** `isAgentModel`: a linear search of the configured agent IDs. */
  function IsAgentModel(agentIds: seq<string>, model: string): (r: bool)
    ensures r <==> exists i :: 0 <= i < |agentIds| && agentIds[i] == model
    decreases |agentIds|
  {
    if agentIds == [] then false
    else if agentIds[0] == model then true
    else IsAgentModel(agentIds[1..], model)
  }

  /** Names of the cookies `getCookies` sets. */
  const CookieNames: set<string> := {
    "guest_has_seen_legal_disclaimer", "youchat_personalization", "DS",
    "you_subscription", "youpro_subscription", "ai_model", "youchat_smart_learn"
  }

  /** `getCookies`: the fixed cookie jar with the caller's credential under "DS". */
  function GetCookies(credential: string): (r: map<string, string>)
    ensures r.Keys == CookieNames
    ensures r["DS"] == credential
  {
    map[
      "guest_has_seen_legal_disclaimer" := "true",
      "youchat_personalization" := "true",
      "DS" := credential,
      "you_subscription" := "youpro_standard_year",
      "youpro_subscription" := "true",
      "ai_model" := "deepseek_r1",
      "youchat_smart_learn" := "true"
    ]
  }

  /** One `/v1/models` entry. */
  datatype ModelDetail = ModelDetail(id: string, objectType: string, created: int, ownedBy: string)

  /** The `/v1/models` body: the table's public names (Go map order, so
      unordered here), then the agent IDs in configuration order. */
  datatype ModelListing = ModelListing(objectType: string, mapped: set<ModelDetail>, agents: seq<ModelDetail>)

  function Detail(id: string, created: int): ModelDetail {
    ModelDetail(id, "model", created, "organization-owner")
  }

  /** The model list response (api/main.go:235-259) over the table's public
      names `names` (the handler passes `ModelMap().Keys`). */
  function ListModels(names: set<string>, agentIds: seq<string>, created: int): (r: ModelListing)
    ensures r.objectType == "list"
    ensures forall id :: id in names ==> Detail(id, created) in r.mapped
    ensures forall d :: d in r.mapped ==> d.id in names && d == Detail(d.id, created)
    ensures |r.agents| == |agentIds|
    ensures forall i :: 0 <= i < |agentIds| ==> r.agents[i] == Detail(agentIds[i], created)
  {
    ModelListing("list",
      set id | id in names :: Detail(id, created),
      seq(|agentIds|, i requires 0 <= i < |agentIds| => Detail(agentIds[i], created)))
  }
}
