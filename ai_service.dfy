/** The conversational answer engine: retrieval, prompt assembly, one call to
    the text generator, response extraction and citations, with every
    generator failure turned into a fixed apology. The generator is the
    function-valued parameter `llm`, answering a message sequence and
    sampling parameters with generated content or a failure tag. */
module AiService {
  import opened Common
  import opened Memories

  datatype Role = System | User | Assistant

  datatype Message = Message(role: Role, content: string)

  /** A turn of prior conversation: only user and assistant turns are replayed. */
  type Turn = m: Message | m.role != System witness Message(User, "")

  /** The generator's `choices[0]?.message?.content`: absent, one text, or a
      list of text parts. */
  datatype Content = Missing | Text(text: string) | Parts(parts: seq<string>)

  datatype GenParams = GenParams(model: string, temperature: real, maxTokens: nat)

  type Generator = (seq<Message>, GenParams) -> Outcome<Content>

  /** A citation: id, title and score of one retrieved memory. */
  datatype Reference = Reference(id: string, title: string, score: real)

  datatype ChatReply = ChatReply(response: string, references: seq<Reference>)

  const ChatParams := GenParams("mistral-large-latest", 0.7, 1000)
  const SummaryParams := GenParams("mistral-large-latest", 0.5, 1500)

  const ChatRetrievalLimit: nat := 8
  const SummaryRetrievalLimit: nat := 10
  const SummaryListingLimit: nat := 50
  const MaxReferences: nat := 5
  const RelevanceThreshold: real := 0.7

  const NoResponseApology := "I apologize, but I was unable to generate a response."
  const ErrorApology := "I apologize, but I encountered an error while processing your request. Please try again."
  const NoSummary := "Unable to generate summary."
  const SummaryError := "Error generating summary. Please try again."

  const SystemPromptHead :=
    "You are a helpful AI assistant that helps users interact with their personal knowledge base. \n\n"
    + "Context from user's memories:\n"
  const SystemPromptTail :=
    "\n\nInstructions:\n"
    + "- Use the provided context to answer the user's question\n"
    + "- Be specific and reference relevant information from their memories\n"
    + "- If the context doesn't contain enough information, say so clearly\n"
    + "- Keep responses concise but comprehensive\n"
    + "- When referencing memories, be specific about which information you're using"

  const SummaryPromptHead := "Please provide a comprehensive summary of the following personal knowledge base entries"
  const SummaryPromptTail :=
    "\n\nCreate a well-organized summary that:\n"
    + "- Groups related information together\n"
    + "- Highlights key insights and patterns\n"
    + "- Identifies important themes\n"
    + "- Is easy to scan and reference"

  // ------------------------------------------------------------------ chat

  /** The system instruction, carrying the retrieval context verbatim. */
  function SystemPrompt(context: string): (r: string)
    ensures OccursAt(r, context, |SystemPromptHead|)
    ensures Contains(r, context)
  {
    var r := SystemPromptHead + context + SystemPromptTail;
    assert OccursAt(r, context, |SystemPromptHead|);
    r
  }

  /** System turn first, then the history in order, then the new user turn. */
  function ConversationMessages(system: string, history: seq<Turn>, message: string): (r: seq<Message>)
    ensures |r| == |history| + 2
    ensures r[0] == Message(System, system)
    ensures forall i :: 0 <= i < |history| ==> r[i + 1] == history[i]
    ensures r[|r| - 1] == Message(User, message)
    ensures forall i :: 0 < i < |r| ==> r[i].role != System
  {
    [Message(System, system)] + history + [Message(User, message)]
  }

  /** A list of parts is joined with single spaces (an empty list gives "");
      otherwise absent or empty text becomes the fixed apology. */
  function ResponseText(c: Content): (r: string)
    ensures c.Parts? ==> r == Join(" ", c.parts)
    ensures c.Text? && c.text != "" ==> r == c.text
    ensures c.Missing? || c == Text("") ==> r == NoResponseApology
    ensures !c.Parts? ==> r != ""
  {
    match c
    case Parts(ps) => Join(" ", ps)
    case Text(t) => if t != "" then t else NoResponseApology
    case Missing => NoResponseApology
  }

  predicate IsRelevant(s: ScoredMemory) {
    s.score > RelevanceThreshold
  }

  /** The retrieved memories scoring above 0.7, in retrieval order. */
  function Relevant(ms: seq<ScoredMemory>): (r: seq<ScoredMemory>)
    ensures forall s :: s in r <==> s in ms && s.score > RelevanceThreshold
    ensures IsSubsequence(r, ms)
    ensures forall s :: multiset(r)[s] == if s.score > RelevanceThreshold then multiset(ms)[s] else 0
  {
    FilterIsSubsequence(IsRelevant, ms);
    FilterMultiset(IsRelevant, ms);
    Filter(IsRelevant, ms)
  }

  function ToReference(s: ScoredMemory): Reference {
    Reference(s.memory.id, s.memory.title, s.score)
  }

  /** The citations: the first five relevant memories, projected to id,
      title and score. */
  function References(ms: seq<ScoredMemory>): (r: seq<Reference>)
    ensures |r| == Min(MaxReferences, |Relevant(ms)|)
    ensures forall i :: 0 <= i < |r| ==> r[i] == ToReference(Relevant(ms)[i])
    ensures forall x :: x in r ==> x.score > RelevanceThreshold
    ensures forall x :: x in r ==> exists s :: s in ms && x == ToReference(s)
  {
    var top := Take(Relevant(ms), MaxReferences);
    var r := seq(|top|, i requires 0 <= i < |top| => ToReference(top[i]));
    assert forall x :: x in r ==> x.score > RelevanceThreshold && exists s :: s in ms && x == ToReference(s) by {
      forall x | x in r ensures x.score > RelevanceThreshold && exists s :: s in ms && x == ToReference(s) {
        var i :| 0 <= i < |r| && r[i] == x;
        assert top[i] in Relevant(ms);
      }
    }
    r
  }

  /** The citations follow the ranking: they are the projections of a
      subsequence of the retrieved memories. */
  lemma {:induction false} ReferencesFollowRanking(ms: seq<ScoredMemory>)
    ensures var top := Take(Relevant(ms), MaxReferences);
            && IsSubsequence(top, ms)
            && |References(ms)| == |top|
            && forall i :: 0 <= i < |top| ==> References(ms)[i] == ToReference(top[i])
  {
    TakeSubsequence(Relevant(ms), ms, MaxReferences);
  }

  lemma {:induction false} TakeSubsequence<T>(a: seq<T>, b: seq<T>, n: nat)
    requires IsSubsequence(a, b)
    ensures IsSubsequence(Take(a, n), b)
    decreases |b|
  {
    var t := Take(a, n);
    if t != [] {
      if a[0] == b[0] && IsSubsequence(a[1..], b[1..]) {
        TakeSubsequence(a[1..], b[1..], n - 1);
        assert Take(a[1..], n - 1) == t[1..];
      } else {
        TakeSubsequence(a, b[1..], n);
      }
    }
  }

  /** One chat answer. Retrieval asks for 8 candidates; the generator gets the
      system prompt built from the retrieval context, the history and the
      message. A generator failure yields the fixed apology and no citations;
      otherwise the reply is the extracted text with the citations. */
  function ChatWithMemories(svc: MemoryService, userId: string, message: string, history: seq<Turn>,
                            gw: Gateways, llm: Generator): (reply: ChatReply)
    reads svc
    ensures var retrieval := svc.SemanticSearch(userId, message, ChatRetrievalLimit, gw);
            var answer := llm(ConversationMessages(SystemPrompt(retrieval.context), history, message), ChatParams);
            && (answer.Failure? ==> reply == ChatReply(ErrorApology, []))
            && (answer.Success? ==>
                  reply.response == ResponseText(answer.value) && reply.references == References(retrieval.memories))
    ensures |reply.references| <= MaxReferences
    ensures forall x :: x in reply.references ==> x.score > RelevanceThreshold
  {
    var retrieval := svc.SemanticSearch(userId, message, ChatRetrievalLimit, gw);
    var messages := ConversationMessages(SystemPrompt(retrieval.context), history, message);
    match llm(messages, ChatParams)
    case Failure => ChatReply(ErrorApology, [])
    case Success(c) => ChatReply(ResponseText(c), References(retrieval.memories))
  }

  // ------------------------------------------------------------- summaries

  /** The caller's newest 50 memories rendered as context blocks; empty
      exactly when the caller has no memories. */
  function AllMemoriesContext(svc: MemoryService, userId: string): (r: string)
    reads svc
    ensures r == Blocks(svc.GetMemories(userId, ListOptions(Some(SummaryListingLimit), None, None, None)).memories)
    ensures r == "" <==> forall m :: m in svc.Table() ==> m.userId != userId
  {
    var options := ListOptions(Some(SummaryListingLimit), None, None, None);
    var page := svc.GetMemories(userId, options);
    var matching := Matching(svc.Table(), BuildWhere(userId, options));
    assert forall m :: m in svc.Table() && m.userId == userId ==> page.memories != [] by {
      forall m | m in svc.Table() && m.userId == userId ensures page.memories != [] {
        assert Listed(m, userId, options);
        assert m in matching;
      }
    }
    assert page.memories != [] ==> exists m :: m in svc.Table() && m.userId == userId by {
      if page.memories != [] {
        assert page.memories[0] in page.memories;
      }
    }
    Blocks(page.memories)
  }

  /** With a non-empty query the context comes from semantic search with
      limit 10; otherwise from the newest-50 listing. */
  function SummaryContext(svc: MemoryService, userId: string, query: Option<string>, gw: Gateways): (r: string)
    reads svc
    ensures Truthy(query) ==> r == svc.SemanticSearch(userId, query.value, SummaryRetrievalLimit, gw).context
    ensures !Truthy(query) ==> r == AllMemoriesContext(svc, userId)
  {
    if Truthy(query) then svc.SemanticSearch(userId, query.value, SummaryRetrievalLimit, gw).context
    else AllMemoriesContext(svc, userId)
  }

  function SummaryPrompt(query: Option<string>, context: string): (r: string)
    ensures Contains(r, context)
  {
    var about := if Truthy(query) then " related to \"" + query.value + "\"" else "";
    var r := SummaryPromptHead + about + ":\n\n" + context + SummaryPromptTail;
    assert OccursAt(r, context, |SummaryPromptHead + about + ":\n\n"|);
    r
  }

  /** The summary's content before the fallback: joined parts, the text, or
      "" when absent (absent and empty are both falsy). */
  function SummaryText(c: Content): string {
    match c
    case Parts(ps) => Join(" ", ps)
    case Text(t) => t
    case Missing => ""
  }

  /** A single-turn summary. Never empty: empty output becomes "Unable to
      generate summary." and a generator failure becomes the fixed error text. */
  function SummarizeMemories(svc: MemoryService, userId: string, query: Option<string>,
                             gw: Gateways, llm: Generator): (text: string)
    reads svc
    ensures text != ""
    ensures var answer := llm([Message(User, SummaryPrompt(query, SummaryContext(svc, userId, query, gw)))], SummaryParams);
            && (answer.Failure? ==> text == SummaryError)
            && (answer.Success? && SummaryText(answer.value) == "" ==> text == NoSummary)
            && (answer.Success? && SummaryText(answer.value) != "" ==> text == SummaryText(answer.value))
  {
    var prompt := SummaryPrompt(query, SummaryContext(svc, userId, query, gw));
    match llm([Message(User, prompt)], SummaryParams)
    case Failure => SummaryError
    case Success(c) =>
      var content := SummaryText(c);
      if content != "" then content else NoSummary
  }

  // ------------------------------------------------------------- scenario

  /** One stored memory, "Paris trip" / "Visited the Louvre", returned by the
      index at 0.85: retrieval yields exactly that memory with that score, the
      context mentions both the title and "Louvre", and it is cited. */
  lemma ParisScenario(svc: MemoryService, userId: string, question: string, paris: Memory, gw: Gateways)
    requires svc.Table() == [paris]
    requires paris.title == "Paris trip" && paris.content == "Visited the Louvre" && paris.tags == ["travel"]
    requires IndexMatches(userId, question, ChatRetrievalLimit, gw) == Some([Match(paris.id, Some(0.85))])
    ensures var r := svc.SemanticSearch(userId, question, ChatRetrievalLimit, gw);
            && r.memories == [ScoredMemory(paris, 0.85)]
            && Contains(r.context, "Paris trip")
            && Contains(r.context, "Louvre")
            && References(r.memories) == [Reference(paris.id, "Paris trip", 0.85)]
  {
    var matches := [Match(paris.id, Some(0.85))];
    var r := svc.SemanticSearch(userId, question, ChatRetrievalLimit, gw);
    assert MatchIds(matches) == [paris.id];
    assert FindByIds([paris], [paris.id]) == [paris];
    assert ScoredMemory(paris, 0.85) in r.memories;
    assert r.memories == [ScoredMemory(paris, 0.85)];
    assert Unscored(Take(r.memories, ContextSize)) == [paris];
    var parts := seq(1, i requires 0 <= i < 1 => Block([paris][i]));
    assert r.context == Join(BlockSeparator, parts) == Block(paris);
    assert OccursAt(paris.content, "Louvre", 12);
    ContainsTransitive(r.context, paris.content, "Louvre");
    assert Relevant(r.memories) == r.memories;
  }
}
