/**
 * The search use case (src/application/use_cases/search_documents.py): a
 * retrieval chain that formats the retrieved documents into a tagged context
 * block, fills the two slots of a fixed prompt and asks the language model;
 * and `execute`, which pairs the chain's answer with the chunks of a separate
 * repository search.
 *
 * The chain's retriever, the repository's `search` and the language model are
 * collaborators whose code is not part of this model: each is a function
 * parameter that returns a value or raises an error. The chain retrieves its
 * context by itself, so nothing here assumes the sources of a result are the
 * context the answer was generated from.
 */
module SearchDocuments {
  import opened Optional
  import opened Exceptions
  import opened Entities
  import Text

  /** A piece of a prompt template: literal text, or a `{name}` placeholder. */
  datatype Segment = Literal(text: string) | Slot(name: string)

  /** The placeholder names of a template, in order. */
  function SlotNames(template: seq<Segment>): seq<string> {
    if |template| == 0 then []
    else (if template[0].Slot? then [template[0].name] else []) + SlotNames(template[1..])
  }

  /** Formatting a template: each placeholder is replaced by its value; a
      placeholder without a value makes formatting fail. */
  function Render(template: seq<Segment>, values: map<string, string>): Option<string> {
    if |template| == 0 then Some("")
    else
      var first := match template[0]
        case Literal(text) => Some(text)
        case Slot(name) => if name in values then Some(values[name]) else None;
      match (first, Render(template[1..], values))
      case (Some(a), Some(b)) => Some(a + b)
      case _ => None
  }

  /** Every name in `names` has a value. */
  predicate AllBound(names: seq<string>, values: map<string, string>) {
    forall i :: 0 <= i < |names| ==> names[i] in values
  }

  /** A template formats exactly when every placeholder has a value. */
  lemma {:induction false} RenderDefined(template: seq<Segment>, values: map<string, string>)
    ensures Render(template, values).Some? <==> AllBound(SlotNames(template), values)
    decreases |template|
  {
    if |template| > 0 {
      RenderDefined(template[1..], values);
      var rest := SlotNames(template[1..]);
      if template[0].Slot? {
        var names := [template[0].name] + rest;
        assert SlotNames(template) == names;
        assert AllBound(names, values) <==> template[0].name in values && AllBound(rest, values) by {
          if AllBound(names, values) {
            assert names[0] == template[0].name;
            forall i | 0 <= i < |rest| ensures rest[i] in values {
              assert rest[i] == names[i + 1];
            }
          }
        }
      } else {
        assert SlotNames(template) == rest;
      }
    }
  }

  const PromptHead: string :=
    "\n"
    + "Você é um Assistente de IA Especialista em Busca Semântica corporativa. Sua função é responder perguntas baseando-se estritamente nos documentos recuperados.\n"
    + "\n"
    + "<instrucoes_principais>\n"
    + "1.  **Fonte da Verdade:** Use SOMENTE as informações fornecidas dentro das tags <contexto>. Ignore qualquer conhecimento prévio que você tenha sobre o mundo que não esteja no texto.\n"
    + "2.  **Integridade:** Se a resposta não estiver explícita ou não puder ser deduzida com alta confiança a partir do <contexto>, você DEVE responder: \"Não encontrei informações suficientes nos documentos para responder a essa pergunta.\"\n"
    + "3.  **Objetividade:** Seja direto, profissional e conciso. Evite preâmbulos como \"Com base no texto...\". Vá direto ao ponto.\n"
    + "4.  **Citação Implícita:** Se houver múltiplas menções ao tópico, sintetize as informações de forma coerente.\n"
    + "</instrucoes_principais>\n"
    + "\n"
    + "<contexto>\n"

  const PromptMiddle: string :=
    "\n"
    + "</contexto>\n"
    + "\n"
    + "<pergunta_usuario>\n"

  const PromptTail: string :=
    "\n"
    + "</pergunta_usuario>\n"
    + "\n"
    + "Resposta:\n"

  const ContextSlot: string := "contexto"
  const QuestionSlot: string := "pergunta"

  /** `PROMPT_TEMPLATE`: fixed persona and rules, then the context slot inside
      `<contexto>` tags, then the question slot inside `<pergunta_usuario>` tags. */
  const PromptTemplate: seq<Segment> := [
    Literal(PromptHead), Slot(ContextSlot), Literal(PromptMiddle), Slot(QuestionSlot), Literal(PromptTail)
  ]

  /** The prompt has exactly two placeholders, the context first. */
  lemma PromptSlots()
    ensures SlotNames(PromptTemplate) == [ContextSlot, QuestionSlot]
  {
    var t := PromptTemplate;
    assert SlotNames(t[5..]) == [];
    assert t[4..][1..] == t[5..];
    assert SlotNames(t[4..]) == [];
    assert t[3..][1..] == t[4..];
    assert SlotNames(t[3..]) == [QuestionSlot];
    assert t[2..][1..] == t[3..];
    assert SlotNames(t[2..]) == [QuestionSlot];
    assert t[1..][1..] == t[2..];
    assert SlotNames(t[1..]) == [ContextSlot, QuestionSlot];
  }

  /** A template of two placeholders between three literal texts formats to
      the texts with the placeholders' values in between. */
  lemma RenderTwoSlots(head: string, first: string, middle: string, second: string, tail: string,
                       values: map<string, string>)
    requires first in values && second in values
    ensures Render([Literal(head), Slot(first), Literal(middle), Slot(second), Literal(tail)], values)
      == Some(head + values[first] + middle + values[second] + tail)
  {
    var t := [Literal(head), Slot(first), Literal(middle), Slot(second), Literal(tail)];
    assert t[4..][1..] == [];
    assert Render(t[4..], values) == Some(tail + "");
    assert tail + "" == tail;
    assert t[3..][1..] == t[4..];
    assert t[2..][1..] == t[3..];
    assert Render(t[2..], values) == Some(middle + (values[second] + tail));
    assert t[1..][1..] == t[2..];
    assert Render(t[1..], values) == Some(values[first] + (middle + (values[second] + tail)));
    assert head + (values[first] + (middle + (values[second] + tail)))
      == head + values[first] + middle + values[second] + tail;
  }

  /** The prompt the chain sends: the formatted context goes into the context
      slot and the user's question, verbatim, into the question slot. */
  function Prompt(context: string, question: string): (p: string)
    ensures p == PromptHead + context + PromptMiddle + question + PromptTail
  {
    var values := map[ContextSlot := context, QuestionSlot := question];
    RenderTwoSlots(PromptHead, ContextSlot, PromptMiddle, QuestionSlot, PromptTail, values);
    Render(PromptTemplate, values).value
  }

  /** The delimited block of the i-th retrieved document. */
  function Block(i: nat, content: string): string {
    "<documento_id=" + Text.NatToString(i) + ">\n" + content + "\n</documento_id=" + Text.NatToString(i) + ">"
  }

  /** The opening tag of a block, which is all that tells blocks apart. */
  function OpeningTag(i: nat): string {
    "<documento_id=" + Text.NatToString(i) + ">\n"
  }

  /** One block per document, numbered from 0 in retrieval order. */
  function Blocks(docs: seq<LangchainDocument>): (blocks: seq<string>)
    ensures |blocks| == |docs|
    ensures forall i :: 0 <= i < |docs| ==> blocks[i] == Block(i, docs[i].pageContent)
  {
    seq(|docs|, i requires 0 <= i < |docs| => Block(i, docs[i].pageContent))
  }

  /** `format_docs`: the blocks joined by newlines; no documents give "". */
  function FormatDocs(docs: seq<LangchainDocument>): (context: string)
    ensures |docs| == 0 ==> context == ""
    ensures |docs| == 1 ==> context == Block(0, docs[0].pageContent)
  {
    Text.Join(Blocks(docs), "\n")
  }

  /** Retrieving one more document appends a newline and that document's
      block, numbered with its position, to the context. */
  lemma FormatDocsAppend(docs: seq<LangchainDocument>, d: LangchainDocument)
    requires |docs| >= 1
    ensures FormatDocs(docs + [d]) == FormatDocs(docs) + "\n" + Block(|docs|, d.pageContent)
  {
    var all := docs + [d];
    assert Blocks(all) == Blocks(docs) + [Block(|docs|, d.pageContent)];
    Text.JoinSnoc(Blocks(docs), Block(|docs|, d.pageContent), "\n");
  }

  /** The context written out block by block from the last document back: an
      independent statement of what `format_docs` produces. */
  function ContextOf(docs: seq<LangchainDocument>): string
    decreases |docs|
  {
    if |docs| == 0 then ""
    else if |docs| == 1 then Block(0, docs[0].pageContent)
    else ContextOf(docs[..|docs| - 1]) + "\n" + Block(|docs| - 1, docs[|docs| - 1].pageContent)
  }

  /** `format_docs` agrees with the block-by-block statement on every input. */
  lemma {:induction false} FormatDocsIsContextOf(docs: seq<LangchainDocument>)
    ensures FormatDocs(docs) == ContextOf(docs)
    decreases |docs|
  {
    if |docs| > 1 {
      var front := docs[..|docs| - 1];
      FormatDocsIsContextOf(front);
      assert docs == front + [docs[|docs| - 1]];
      FormatDocsAppend(front, docs[|docs| - 1]);
    }
  }

  /** Different positions get different opening tags: no two blocks of one
      context carry the same number. */
  lemma OpeningTagsDistinct(i: nat, j: nat)
    requires i != j
    ensures OpeningTag(i) != OpeningTag(j)
  {
    var prefix := "<documento_id=";
    if OpeningTag(i) == OpeningTag(j) {
      var a := Text.NatToString(i);
      var b := Text.NatToString(j);
      assert |a| == |b|;
      assert OpeningTag(i)[|prefix|..|prefix| + |a|] == a;
      assert OpeningTag(j)[|prefix|..|prefix| + |b|] == b;
      Text.NatToStringInjective(i, j);
    }
  }

  /** The chain: retrieve with `k`, format, fill the prompt, ask the model and
      keep its text. A retriever error stops the chain and comes out as it
      is; otherwise the model is asked exactly once, on the prompt built from
      the retrieved documents and the query, and its outcome is the chain's. */
  function RunChain(
    query: string, k: int,
    retrieve: (string, int) -> Result<seq<LangchainDocument>>,
    llm: string -> Result<string>): (r: Result<string>)
    ensures retrieve(query, k).Err? ==> r == Err(retrieve(query, k).error)
    ensures retrieve(query, k).Ok? ==>
      r == llm(PromptHead + FormatDocs(retrieve(query, k).value) + PromptMiddle + query + PromptTail)
  {
    match retrieve(query, k)
    case Err(e) => Err(e)
    case Ok(docs) => llm(Prompt(FormatDocs(docs), query))
  }

  /** The `except` clause of `execute`: every error, whatever its kind,
      becomes a SearchError caused by it. */
  function SearchFailed(e: Error): (r: Error)
    ensures r.kind == Search && r.cause == Some(e)
    ensures r.message == "Search failed: " + e.message
  {
    Error(Search, "Search failed: " + e.message, Some(e))
  }

  /** `execute(query)`. The sources come from the repository's `search` with
      `retriever_k`; the answer comes from the chain, whose retriever uses the
      same `retriever_k`; the query is kept as given. The repository is asked
      first, and any failure of either is raised as a SearchError. */
  function Execute(
    query: string, retrieverK: int,
    search: (string, int) -> Result<seq<DocumentChunk>>,
    retrieve: (string, int) -> Result<seq<LangchainDocument>>,
    llm: string -> Result<string>): (r: Result<SearchResult>)
    ensures r.Ok? <==>
      && search(query, retrieverK).Ok?
      && retrieve(query, retrieverK).Ok?
      && llm(Prompt(FormatDocs(retrieve(query, retrieverK).value), query)).Ok?
    ensures r.Ok? ==>
      && r.value.query == query
      && r.value.sources == search(query, retrieverK).value
      && r.value.answer == llm(Prompt(FormatDocs(retrieve(query, retrieverK).value), query)).value
    ensures r.Err? ==> r.error.kind == Search && r.error.cause.Some?
    ensures search(query, retrieverK).Err? ==> r == Err(SearchFailed(search(query, retrieverK).error))
    ensures search(query, retrieverK).Ok? && retrieve(query, retrieverK).Err? ==>
      r == Err(SearchFailed(retrieve(query, retrieverK).error))
    ensures search(query, retrieverK).Ok? && retrieve(query, retrieverK).Ok? ==>
      var answer := llm(Prompt(FormatDocs(retrieve(query, retrieverK).value), query));
      answer.Err? ==> r == Err(SearchFailed(answer.error))
  {
    match search(query, retrieverK)
    case Err(e) => Err(SearchFailed(e))
    case Ok(chunks) =>
      match RunChain(query, retrieverK, retrieve, llm)
      case Err(e) => Err(SearchFailed(e))
      case Ok(answer) => Ok(SearchResult(query, answer, chunks))
  }

  /** `search_sync(query)`: the answer of `execute`, or its error unchanged. */
  function SearchSync(
    query: string, retrieverK: int,
    search: (string, int) -> Result<seq<DocumentChunk>>,
    retrieve: (string, int) -> Result<seq<LangchainDocument>>,
    llm: string -> Result<string>): (r: Result<string>)
    ensures var full := Execute(query, retrieverK, search, retrieve, llm);
      && (r.Ok? <==> full.Ok?)
      && (r.Ok? ==> r.value == full.value.answer)
      && (r.Err? ==> r.error == full.error)
  {
    match Execute(query, retrieverK, search, retrieve, llm)
    case Err(e) => Err(e)
    case Ok(result) => Ok(result.answer)
  }
}
