/** The question-answering engine: it retrieves the papers nearest to a
    question, formats them into a numbered context, asks the language model
    with a fixed prompt, and turns every exception into a fixed error answer.
    Retrieval and the model are abstract functions that may fail. */
module QaSystem {
  import opened Wrappers
  import opened Records
  import opened PyText
  import Configuration
  import Qdrant
  import Storage

  /** Retrieval: the papers for a question and a limit, or the exception raised. */
  type Searcher = (string, int) -> Result<seq<Record>, Error>

  /** What `llm.invoke` returns: a message with a `content` attribute, or a
      bare value used as the answer as it is. */
  datatype Reply = Message(content: string) | Bare(text: string)

  /** The language model: the reply to a prompt, or the exception raised. */
  type Llm = string -> Result<Reply, Error>

  const ModelName := "llama-3.1-8b-instant"
  const NotConfigured := "Config is not configured"

  /** The dict `answer_question` returns. */
  datatype Answer = Answer(answer: string, source: seq<Record>, contextUsed: nat, error: Option<string>)

  const NoPapersAnswer := Answer("No relevant papers found", [], 0, None)

  function ErrorAnswer(e: Error): Answer {
    Answer("An error occurred while answering the question", [], 0, Some(ErrorText(e)))
  }

  /** `response.content if hasattr(response, "content") else response`. */
  function ReplyText(r: Reply): string {
    match r
    case Message(c) => c
    case Bare(t) => t
  }

  // ---- the prompt ----

  const PromptHead := "\n        You are a helpful assistant that can answer questions about the following context:\n        "
  const PromptMiddle := "\n\n        Question: "
  const PromptTail := "\n        Answer:\n        "

  /** `prompt_template.format(context=..., question=...)`. */
  function Prompt(context: string, question: string): string {
    PromptHead + context + PromptMiddle + question + PromptTail
  }

  /** The prompt holds the context right after its fixed head, and the
      question right before its fixed tail. */
  lemma PromptPlaces(context: string, question: string)
    ensures var p := Prompt(context, question);
      && |p| == |PromptHead| + |context| + |PromptMiddle| + |question| + |PromptTail|
      && p[..|PromptHead|] == PromptHead
      && p[|PromptHead|..|PromptHead| + |context|] == context
      && p[|p| - |PromptTail| - |question|..|p| - |PromptTail|] == question
      && p[|p| - |PromptTail|..] == PromptTail
  {
    var p := Prompt(context, question);
    assert p == PromptHead + (context + (PromptMiddle + (question + PromptTail)));
  }

  // ---- _format_context ----

  /** `str(paper.get(key, "N/A"))`. */
  function Field(paper: Record, key: string): string {
    if key in paper then Render(paper[key]) else "N/A"
  }

  const BlockHead := "\n            Paper "

  /** The line break and indentation between the lines of a block. */
  const Indent := "\n            "

  /** The lines of a block after its header: each caption with the key it shows. */
  const Shown: seq<(string, string)> :=
    [("Title: ", "title"), ("Authors: ", "authors"), ("arxiv_id: ", "arxiv_id"),
     ("Category: ", "primary_category"), ("Summary: ", "summary")]

  /** One line of a block: the caption, the field and a comma. */
  function FieldLine(paper: Record, line: (string, string)): string {
    line.0 + Field(paper, line.1) + ","
  }

  /** The displayed lines of a paper, one per entry of `Shown`. */
  function Lines(paper: Record): seq<string> {
    seq(|Shown|, j requires 0 <= j < |Shown| => FieldLine(paper, Shown[j]))
  }

  /** The lines put together, each followed by `end`. */
  function Terminated(lines: seq<string>, end: string): string
    decreases |lines|
  {
    if lines == [] then "" else lines[0] + end + Terminated(lines[1..], end)
  }

  /** The part of a context block after its number. */
  function BlockBody(paper: Record): (b: string)
    ensures b != [] && b[0] == ':'
  {
    ":" + Indent + Terminated(Lines(paper), Indent)
  }

  /** `t` occurs in `s` starting at position `i`. */
  predicate OccursAt(s: string, t: string, i: nat) {
    i + |t| <= |s| && s[i..i + |t|] == t
  }

  /** `t` occurs in `s`. */
  ghost predicate Contains(s: string, t: string) {
    exists i: nat :: OccursAt(s, t, i)
  }

  /** What occurs in a string occurs in it after any prefix. */
  lemma OccursAfter(pre: string, s: string, t: string, i: nat)
    requires OccursAt(s, t, i)
    ensures OccursAt(pre + s, t, |pre| + i)
  {
    assert (pre + s)[|pre| + i..|pre| + i + |t|] == s[i..i + |t|];
  }

  /** Where the `j`-th line occurs in the lines put together. */
  lemma {:induction false} TerminatedHas(lines: seq<string>, end: string, j: nat) returns (at: nat)
    requires j < |lines|
    ensures OccursAt(Terminated(lines, end), lines[j], at)
    decreases j
  {
    var rest := Terminated(lines[1..], end);
    if j == 0 {
      assert (lines[0] + end + rest)[..|lines[0]|] == lines[0];
      at := 0;
    } else {
      var at' := TerminatedHas(lines[1..], end, j - 1);
      OccursAfter(lines[0] + end, rest, lines[j], at');
      at := |lines[0] + end| + at';
    }
  }

  /** The context block of the `i`-th paper (numbered from 1). */
  function Block(i: nat, paper: Record): string {
    BlockHead + (NatToString(i) + BlockBody(paper))
  }

  /** A block states its number: the digits after its head read back as `i`. */
  lemma BlockNumber(i: nat, paper: Record)
    ensures var b := Block(i, paper);
      |b| > |BlockHead| && b[..|BlockHead|] == BlockHead && ParseNat(TakeDigits(b[|BlockHead|..])) == i
  {
    var h, n, body := BlockHead, NatToString(i), BlockBody(paper);
    assert (h + (n + body))[|h|..] == n + body;
    assert (h + (n + body))[..|h|] == h;
    TakeDigitsExact(NatToString(i), BlockBody(paper));
    ParseNatToString(i);
  }

  /** Blocks with different numbers differ. */
  lemma BlockNumbersDistinct(i: nat, j: nat, p: Record, q: Record)
    requires i != j
    ensures Block(i, p) != Block(j, q)
  {
    BlockNumber(i, p);
    BlockNumber(j, q);
  }

  function BlockMaker(): (nat, Record) -> string {
    (i: nat, paper: Record) => Block(i, paper)
  }

  /** The `context` list of `_format_context`. */
  function Blocks(papers: seq<Record>): seq<string> {
    Enumerated(BlockMaker(), papers)
  }

  /** There is one block per paper, in order, and the `k`-th is numbered `k + 1`. */
  lemma BlocksNumbered(papers: seq<Record>)
    ensures |Blocks(papers)| == |papers|
    ensures forall k :: 0 <= k < |papers| ==> Blocks(papers)[k] == Block(k + 1, papers[k])
  {
    EnumeratedSpec(BlockMaker(), papers);
  }

  /** Where the `j`-th displayed line occurs in a block. */
  lemma BlockLine(i: nat, paper: Record, j: nat) returns (at: nat)
    requires j < |Shown|
    ensures OccursAt(Block(i, paper), Lines(paper)[j], at)
  {
    var line, rest := Lines(paper)[j], Terminated(Lines(paper), Indent);
    var inLines := TerminatedHas(Lines(paper), Indent, j);
    OccursAfter(":" + Indent, rest, line, inLines);
    var inBody := |":" + Indent| + inLines;
    OccursAfter(NatToString(i), BlockBody(paper), line, inBody);
    OccursAfter(BlockHead, NatToString(i) + BlockBody(paper), line, |NatToString(i)| + inBody);
    at := |BlockHead| + (|NatToString(i)| + inBody);
  }

  /** A block shows every displayed field after its caption: the value's
      `str()` when the paper has the key, and `N/A` when it does not. */
  lemma BlockShowsFields(i: nat, paper: Record, caption: string, key: string)
    requires (caption, key) in Shown
    ensures key !in paper ==> Contains(Block(i, paper), caption + "N/A,")
    ensures key in paper ==> Contains(Block(i, paper), caption + Render(paper[key]) + ",")
  {
    var j :| 0 <= j < |Shown| && Shown[j] == (caption, key);
    var at := BlockLine(i, paper, j);
    var line := Lines(paper)[j];
    assert line == caption + Field(paper, key) + ",";
    if key !in paper {
      assert line == caption + "N/A,";
    }
  }

  /** What `_format_context` returns. */
  function ContextText(papers: seq<Record>): string {
    if papers == [] then "No papers" else Join(Blocks(papers), "\n\n")
  }

  /** No papers give `"No papers"`; one paper gives its block alone; each
      further paper adds a blank line and its block, numbered after the rest. */
  lemma ContextShape(papers: seq<Record>, p: Record)
    ensures ContextText([]) == "No papers"
    ensures ContextText([p]) == Block(1, p)
    ensures papers != [] ==> ContextText(papers + [p]) == ContextText(papers) + "\n\n" + Block(|papers| + 1, p)
  {
    EnumeratedSnoc(BlockMaker(), [], p);
    assert [] + [p] == [p];
    if papers != [] {
      EnumeratedSnoc(BlockMaker(), papers, p);
      BlocksNumbered(papers);
      JoinSnoc(Blocks(papers), Block(|papers| + 1, p), "\n\n");
    }
  }

  /** `_format_context`: the blocks are built in a loop and joined. */
  method FormatContext(papers: seq<Record>) returns (s: string)
    ensures s == ContextText(papers)
  {
    if papers == [] {
      return "No papers";
    }
    var context: seq<string> := [];
    var i := 0;
    while i < |papers|
      invariant 0 <= i <= |papers|
      invariant context == Blocks(papers[..i])
    {
      assert papers[..i + 1] == papers[..i] + [papers[i]];
      EnumeratedSnoc(BlockMaker(), papers[..i], papers[i]);
      context := context + [Block(i + 1, papers[i])];
      i := i + 1;
    }
    assert papers[..i] == papers;
    return Join(context, "\n\n");
  }

  // ---- answer_question and get_context_for_question ----

  /** `answer_question`: retrieval with limit `maxContext`, then either the
      fixed empty answer, or the model's answer to the prompt over the
      formatted context; any exception gives the fixed error answer. */
  function AnswerOutcome(search: Searcher, llm: Llm, question: string, maxContext: int := 3): Answer {
    match search(question, maxContext)
    case Failure(e) => ErrorAnswer(e)
    case Success(papers) =>
      if papers == [] then NoPapersAnswer
      else
        match llm(Prompt(ContextText(papers), question))
        case Failure(e) => ErrorAnswer(e)
        case Success(reply) => Answer(ReplyText(reply), papers, |papers|, None)
  }

  /** The three outcomes of `answer_question`, and which inputs lead to each. */
  lemma AnswerOutcomes(search: Searcher, llm: Llm, question: string, maxContext: int)
    ensures var a := AnswerOutcome(search, llm, question, maxContext);
      var found := search(question, maxContext);
      && a.contextUsed == |a.source|
      && (found == Success([]) ==> a == NoPapersAnswer)
      && (found.Failure? ==> a == ErrorAnswer(found.error))
      && (found.Success? && found.value != [] ==>
            var reply := llm(Prompt(ContextText(found.value), question));
            && (reply.Failure? ==> a == ErrorAnswer(reply.error))
            && (reply.Success? ==> a.answer == ReplyText(reply.value) && a.source == found.value && a.error == None))
      && (a.error.None? <==> found.Success? && (found.value == [] || llm(Prompt(ContextText(found.value), question)).Success?))
      && (a.error.Some? ==> a.source == [] && a.contextUsed == 0
                            && a.answer == "An error occurred while answering the question")
  {
  }

  /** `get_context_for_question`: never raises; an exception gives `[]`. */
  function ContextOutcome(search: Searcher, question: string, limit: int := 3): seq<Record> {
    match search(question, limit)
    case Failure(_) => []
    case Success(papers) => papers
  }

  /** The context offered for a question is the source an error-free answer
      cites, and it is empty whenever the answer is an error raised by
      retrieval. */
  lemma ContextMatchesAnswer(search: Searcher, llm: Llm, question: string, limit: int)
    ensures var a := AnswerOutcome(search, llm, question, limit);
      && (a.error.None? ==> ContextOutcome(search, question, limit) == a.source)
      && (search(question, limit).Failure? ==> ContextOutcome(search, question, limit) == [] && a.error.Some?)
  {
  }

  /** Retrieval through the paper store, over the vector store's current state. */
  function StoreSearcher(storage: Storage.PaperStorage, server: Qdrant.SearchService): Searcher
    reads storage.client
  {
    var embed, name, collections := storage.embed, storage.collectionName, storage.client.collections;
    (question: string, limit: int) => Storage.SearchOutcome(embed, name, server, collections, question, limit)
  }

  class QASystem {
    const storage: Storage.PaperStorage
    const llm: Llm
    const model: string

    constructor (storage: Storage.PaperStorage, llm: Llm)
      ensures this.storage == storage && this.llm == llm && model == ModelName
    {
      this.storage := storage;
      this.llm := llm;
      model := ModelName;
    }

    /** `answer_question`, retrieving through the paper store. */
    method AnswerQuestion(question: string, server: Qdrant.SearchService, maxContext: int := 3) returns (a: Answer)
      ensures a == AnswerOutcome(StoreSearcher(storage, server), llm, question, maxContext)
    {
      var found := storage.SearchPapers(question, server, maxContext);
      if found.Failure? {
        return ErrorAnswer(found.error);
      }
      var papers := found.value;
      if papers == [] {
        return NoPapersAnswer;
      }
      var context := FormatContext(papers);
      var response := llm(Prompt(context, question));
      if response.Failure? {
        return ErrorAnswer(response.error);
      }
      return Answer(ReplyText(response.value), papers, |papers|, None);
    }

    /** `get_context_for_question`, retrieving through the paper store. */
    method GetContextForQuestion(question: string, server: Qdrant.SearchService, limit: int := 3)
      returns (papers: seq<Record>)
      ensures papers == ContextOutcome(StoreSearcher(storage, server), question, limit)
    {
      var found := storage.SearchPapers(question, server, limit);
      if found.Failure? {
        return [];
      }
      return found.value;
    }
  }

  /** `QASystem()`: the configuration is checked first, then the paper store
      is set up (`storeFault` is what building its clients raises), then the
      chat model is built (`llmFault` is what `ChatGroq(...)` raises). Every
      exception is raised to the caller; a collection already created stays. */
  method NewQASystem(config: Configuration.Config, client: Qdrant.Client, embed: Storage.Embedder, llm: Llm,
                     storeFault: Option<Error>, listFault: Option<Error>, createFault: Option<Error>,
                     llmFault: Option<Error>)
    returns (r: Result<QASystem, Error>)
    modifies client
    ensures !config.IsConfigured() ==> r == Failure(ValueError(NotConfigured)) && client.collections == old(client.collections)
    ensures config.IsConfigured() && storeFault.Some? ==>
      r == Failure(storeFault.value) && client.collections == old(client.collections)
    ensures config.IsConfigured() && storeFault.None? ==>
      var e := Storage.EnsureCollection(old(client.collections), Storage.CollectionName, embed, listFault, createFault);
      && (r.Success? <==> e.Success? && llmFault.None?)
      && (e.Failure? ==> r == Failure(e.error) && client.collections == old(client.collections))
      && (e.Success? ==> client.collections == e.value)
      && (e.Success? && llmFault.Some? ==> r == Failure(llmFault.value))
      && (r.Success? ==> fresh(r.value) && r.value.llm == llm && r.value.model == ModelName
                         && r.value.storage.client == client && r.value.storage.embed == embed
                         && r.value.storage.collectionName == Storage.CollectionName)
  {
    if !config.IsConfigured() {
      return Failure(ValueError(NotConfigured));
    }
    var storage := Storage.NewPaperStorage(config, client, embed, storeFault, listFault, createFault);
    if storage.Failure? {
      return Failure(storage.error);
    }
    if llmFault.Some? {
      return Failure(llmFault.value);
    }
    var qa := new QASystem(storage.value, llm);
    return Success(qa);
  }
}
