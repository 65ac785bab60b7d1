/** The two conversations the chatbot sends to the language model: the few-shot
    classifier transcript of `query_analysis` and the two-turn answer prompt of
    `infer_llm`; and the test that turns the classifier's reply into a decision
    to search the web. */
module Prompts {

  datatype Role = System | User | Assistant

  /** One `{"role": ..., "content": ...}` entry of a conversation. */
  datatype Turn = Turn(role: Role, content: string)

  /** `max_new_tokens` of the classifier and of the answer. */
  const CLASSIFIER_BUDGET: nat := 5
  const SYNTHESIS_BUDGET: nat := 120

  /** The reply that asks for live data, and the one that does not. */
  const NEEDS_LIVE_DATA := "FALSE"
  const GENERAL_KNOWLEDGE := "TRUE"

  const CLASSIFIER_INSTRUCTION :=
    "You are an AI assistant. For any real-time or up-to-date data query, such as current time, exchange rates, live weather, or current events, respond with **only** 'FALSE'. For general knowledge questions, respond with **only** 'TRUE'."

  const OPEN_DOMAIN_INSTRUCTION :=
    "You are an AI assistant. Answer the user's question in a clear and helpful way."

  /** The knowledge-base instruction is this prefix, the context, and a closing backtick. */
  const KNOWLEDGE_BASE_PREFIX :=
    "You are an AI assistant. Answer the user's question in a clear and helpful way only from the following knowledge base: `"
  const KNOWLEDGE_BASE_SUFFIX := "`"

  /** The conversation `query_analysis` gives the model: the instruction, four
      real-time questions answered FALSE, four general-knowledge questions
      answered TRUE, then the user's query. */
  function ClassifierConversation(query: string): (conv: seq<Turn>)
    ensures |conv| == 18
    ensures conv[0] == Turn(System, CLASSIFIER_INSTRUCTION)
    ensures conv[17] == Turn(User, query)
    ensures forall k :: 1 <= k <= 8 ==>
      conv[2 * k - 1].role == User && conv[2 * k].role == Assistant &&
      conv[2 * k].content == (if k <= 4 then NEEDS_LIVE_DATA else GENERAL_KNOWLEDGE)
  {
    [ Turn(System, CLASSIFIER_INSTRUCTION),
      Turn(User, "What's the current time in Pakistan?"),
      Turn(Assistant, NEEDS_LIVE_DATA),
      Turn(User, "What is the current exchange rate of USD to EUR?"),
      Turn(Assistant, NEEDS_LIVE_DATA),
      Turn(User, "What is the temperature in Tokyo right now?"),
      Turn(Assistant, NEEDS_LIVE_DATA),
      Turn(User, "Who won the latest football World Cup?"),
      Turn(Assistant, NEEDS_LIVE_DATA),
      Turn(User, "Who was the first president of the United States?"),
      Turn(Assistant, GENERAL_KNOWLEDGE),
      Turn(User, "What is the capital of France?"),
      Turn(Assistant, GENERAL_KNOWLEDGE),
      Turn(User, "What is the speed of light in a vacuum?"),
      Turn(Assistant, GENERAL_KNOWLEDGE),
      Turn(User, "Who developed the theory of relativity?"),
      Turn(Assistant, GENERAL_KNOWLEDGE),
      Turn(User, query) ]
  }

  /** The system instruction `infer_llm` uses for a given context. */
  function Instruction(context: string): (instruction: string)
    ensures context == "" <==> instruction == OPEN_DOMAIN_INSTRUCTION
    ensures context != "" ==> |instruction| == |KNOWLEDGE_BASE_PREFIX| + |context| + 1
  {
    if context == "" then OPEN_DOMAIN_INSTRUCTION
    else KNOWLEDGE_BASE_PREFIX + context + KNOWLEDGE_BASE_SUFFIX
  }

  /** The conversation `infer_llm` gives the model: one system turn and the
      query as the only user turn. */
  function SynthesisConversation(query: string, context: string): (conv: seq<Turn>)
    ensures |conv| == 2
    ensures conv[0].role == System && conv[1] == Turn(User, query)
    ensures context == "" <==> conv[0].content == OPEN_DOMAIN_INSTRUCTION
  {
    [Turn(System, Instruction(context)), Turn(User, query)]
  }

  /** Reads the knowledge base back out of a system instruction; "" when the
      instruction is not of the knowledge-base form. */
  function KnowledgeBaseOf(instruction: string): string {
    var p, n := |KNOWLEDGE_BASE_PREFIX|, |instruction|;
    if n > p && instruction[..p] == KNOWLEDGE_BASE_PREFIX && instruction[n - 1..] == KNOWLEDGE_BASE_SUFFIX
    then instruction[p..n - 1]
    else ""
  }

  /** The context sits verbatim between the backticks of the instruction: it can
      be read back exactly, so distinct contexts give distinct prompts. */
  lemma SynthesisContextVerbatim(query: string, context: string)
    ensures KnowledgeBaseOf(SynthesisConversation(query, context)[0].content) == context
  {
    var instruction := Instruction(context);
    if context != "" {
      var p := |KNOWLEDGE_BASE_PREFIX|;
      assert instruction[..p] == KNOWLEDGE_BASE_PREFIX;
      assert instruction[p..|instruction| - 1] == context;
    }
  }

  /** ASCII upper-casing of one character, as Python's `str.upper()` does it for ASCII. */
  function UpperChar(c: char): (u: char)
    ensures !('a' <= u <= 'z')
    ensures 'A' <= u <= 'Z' <==> 'A' <= c <= 'Z' || 'a' <= c <= 'z'
    ensures !('a' <= c <= 'z') ==> u == c
  {
    if 'a' <= c <= 'z' then (c as int - 'a' as int + 'A' as int) as char else c
  }

  /** `s.upper()`, restricted to ASCII letters. */
  function Upper(s: string): (u: string)
    ensures |u| == |s|
    ensures forall i :: 0 <= i < |s| ==> u[i] == s[i] || 'a' <= s[i] <= 'z'
    ensures forall i :: 0 <= i < |u| ==> !('a' <= u[i] <= 'z')
  {
    seq(|s|, i requires 0 <= i < |s| => UpperChar(s[i]))
  }

  /** `query_report.upper() == 'FALSE'`: the classifier's reply asks for a web search. */
  predicate RequestsRetrieval(report: string): (b: bool)
    ensures b ==> |report| == |NEEDS_LIVE_DATA|
    ensures b ==> forall i :: 0 <= i < |report| ==> report[i] != ' '
  {
    Upper(report) == NEEDS_LIVE_DATA
  }

  /** A search is made exactly when the reply is FALSE in any mix of cases:
      five characters, each the upper- or lower-case letter of "FALSE". */
  lemma RetrievalIsCaseInsensitiveFalse(report: string)
    ensures RequestsRetrieval(report) <==>
      |report| == 5 && forall i :: 0 <= i < 5 ==> report[i] == "FALSE"[i] || report[i] == "false"[i]
  {
    if |report| == 5 && forall i :: 0 <= i < 5 ==> report[i] == "FALSE"[i] || report[i] == "false"[i] {
      assert Upper(report) == NEEDS_LIVE_DATA by {
        forall i | 0 <= i < 5 ensures Upper(report)[i] == NEEDS_LIVE_DATA[i] {
        }
      }
    }
  }

  /** Any other reply, however close to FALSE, silently means "no search". */
  lemma NearMissesDoNotSearch()
    ensures RequestsRetrieval("false") && RequestsRetrieval("False")
    ensures !RequestsRetrieval("") && !RequestsRetrieval("TRUE") && !RequestsRetrieval("unsure")
    ensures !RequestsRetrieval("FALSE.") && !RequestsRetrieval(" FALSE")
  {
    RetrievalIsCaseInsensitiveFalse("false");
    RetrievalIsCaseInsensitiveFalse("False");
    RetrievalIsCaseInsensitiveFalse("unsure");
  }
}
