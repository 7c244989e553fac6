/**
 * `StoryGenerator.generate_story`: the context string built from the retrieved
 * chunks, the prompt sent to the language model, and the one-key result dict.
 */
module Story {
  import opened Wrappers
  import opened PyText
  import opened Ingestion
  import opened Retrieval

  /** What introduces the retrieved chunks in the prompt. */
  const ContextHeader: string := "\n\nRelevant context:\n"

  /** How many chunks a story asks for. */
  const ContextK: nat := 2

  const PromptPreamble: string := "Write a concise story (under 300 words) about:\n"
  const PromptGuidelines: string :=
    "\n\nGuidelines:\n- Focus on key elements\n- Use clear language\n- Keep it engaging"

  /**
   * The `context` variable: empty unless the category is truthy and retrieval with
   * `k = 2` found something; then the header followed by the chunks, one per line.
   */
  function BuildContext(corpus: CorpusView, search: Search, prompt: string, category: Option<string>): (context: string)
    ensures context == "" <==> !Truthy(category) || GetRelevantChunks(corpus, search, prompt, category, ContextK) == []
    ensures context != "" ==> ContextHeader <= context
  {
    if !Truthy(category) then ""
    else
      var chunks := GetRelevantChunks(corpus, search, prompt, category, ContextK);
      if chunks == [] then "" else ContextHeader + Join("\n", chunks)
  }

  /**
   * When no stored chunk holds a newline (as after ingestion), the context can be
   * read back: splitting what follows the header on newlines gives the chunks retrieved.
   */
  lemma ContextRecoversChunks(corpus: CorpusView, search: Search, prompt: string, category: Option<string>)
    requires forall t :: t in corpus.chunkTexts ==> '\n' !in t
    requires BuildContext(corpus, search, prompt, category) != ""
    ensures var context := BuildContext(corpus, search, prompt, category);
      SplitOn(context[|ContextHeader|..], '\n') == GetRelevantChunks(corpus, search, prompt, category, ContextK)
  {
    var chunks := GetRelevantChunks(corpus, search, prompt, category, ContextK);
    var context := BuildContext(corpus, search, prompt, category);
    assert context == ContextHeader + Join("\n", chunks);
    assert context[|ContextHeader|..] == Join(['\n'], chunks);
    SplitOnJoin(chunks, '\n');
  }

  /** Over an ingested corpus the context always reads back to the retrieved chunks. */
  lemma IngestedContextRecoversChunks(scan: seq<Entry>, search: Search, prompt: string, category: Option<string>)
    requires BuildContext(Ingest(scan), search, prompt, category) != ""
    ensures var context := BuildContext(Ingest(scan), search, prompt, category);
      SplitOn(context[|ContextHeader|..], '\n') == GetRelevantChunks(Ingest(scan), search, prompt, category, ContextK)
  {
    IngestedCorpusWellFormed(scan);
    ContextRecoversChunks(Ingest(scan), search, prompt, category);
  }

  /** The f-string `prompt_template`. */
  function PromptTemplate(prompt: string, context: string): (template: string)
    ensures |template| == |PromptPreamble| + |prompt| + |context| + |PromptGuidelines|
  {
    PromptPreamble + prompt + context + PromptGuidelines
  }

  /** The template determines the prompt and the context it was built from, given either's length. */
  lemma PromptTemplateInjective(p1: string, c1: string, p2: string, c2: string)
    requires |p1| == |p2| || |c1| == |c2|
    requires PromptTemplate(p1, c1) == PromptTemplate(p2, c2)
    ensures p1 == p2 && c1 == c2
  {
    var t := PromptTemplate(p1, c1);
    var a := |PromptPreamble|;
    assert |p1| == |p2|;
    assert p1 == t[a..a + |p1|] == p2;
    assert c1 == t[a + |p1|..a + |p1| + |c1|] == c2;
  }

  /** Without a truthy category the model is given the bare prompt and guidelines. */
  lemma NoCategoryNoContext(corpus: CorpusView, search: Search, prompt: string, category: Option<string>)
    requires !Truthy(category)
    ensures PromptTemplate(prompt, BuildContext(corpus, search, prompt, category)) == PromptPreamble + prompt + PromptGuidelines
  {
    assert prompt + "" == prompt;
  }

  /**
   * `generate_story(prompt, category)`: `llm` is the chat model call on the
   * template (`Failure` carries the message of whatever it raised). The result
   * has exactly one key: `"response"` with the reply on success, `"error"` otherwise.
   */
  function GenerateStory(corpus: CorpusView, search: Search, llm: string -> Result<string, string>,
                         prompt: string, category: Option<string>): (result: map<string, string>)
    ensures var reply := llm(PromptTemplate(prompt, BuildContext(corpus, search, prompt, category)));
      && (reply.Success? ==> result.Keys == {"response"} && result["response"] == reply.value)
      && (reply.Failure? ==> result.Keys == {"error"} && result["error"] == reply.error)
  {
    var template := PromptTemplate(prompt, BuildContext(corpus, search, prompt, category));
    match llm(template)
    case Success(content) => map["response" := content]
    case Failure(message) => map["error" := message]
  }
}
