/** The documentation chatbot (learnbot/chatbot.py): retrieved chunks
    joined into a context block, the prompt template, and the streamed
    answer.

    Loading the index and `similarity_search` are an oracle `search`
    that, for a question and a count `k`, returns the retrieved chunks'
    `page_content` in the order the index returns them, or the exception
    loading or searching raises. */
module Chatbot {
  import opened Wrappers
  import opened ErrorHandler
  import opened Text
  import opened Seqs
  import opened Chat

  /** `similarity_search(question, k=3)`. */
  const RetrievalK := 3
  const ContextSeparator := "\n\n"

  const AnswerModel := "gpt-4"
  const AnswerSystemMessage := "You are a friendly and knowledgeable assistant who helps explain this AI email project."

  const AnswerHead := "\nYou are an AI assistant that explains how a project works using internal documentation.\n\nContext:\n"
  const AnswerMid := "\n\nQuestion:\n"
  const AnswerTail := "\n\nAnswer clearly and helpfully:\n"

  /** `"\n\n".join(d.page_content for d in docs)`. */
  function Context(docs: seq<string>): (c: string)
    ensures docs == [] ==> c == ""
    ensures |docs| == 1 ==> c == docs[0]
  {
    Join(ContextSeparator, docs)
  }

  /** Every retrieved chunk appears verbatim in the context, and a chunk
      retrieved earlier appears, followed by the blank-line separator,
      before every chunk retrieved later. */
  lemma ContextKeepsChunksInOrder(docs: seq<string>, i: nat, j: nat)
    requires i < j < |docs|
    ensures OccursAt(Context(docs), docs[i], JoinOffset(ContextSeparator, docs, i))
    ensures OccursAt(Context(docs), docs[j], JoinOffset(ContextSeparator, docs, j))
    ensures JoinOffset(ContextSeparator, docs, i) + |docs[i]| + |ContextSeparator| <= JoinOffset(ContextSeparator, docs, j)
  {
    JoinAt(ContextSeparator, docs, i);
    JoinAt(ContextSeparator, docs, j);
    JoinOrdered(ContextSeparator, docs, i, j);
  }

  /** The user prompt: the context block, then the verbatim question. */
  function AnswerPrompt(context: string, question: string): (p: string)
    ensures OccursAt(p, AnswerHead, 0)
    ensures OccursAt(p, context, |AnswerHead|)
    ensures OccursAt(p, question, |AnswerHead| + |context| + |AnswerMid|)
    ensures OccursAt(p, AnswerTail, |p| - |AnswerTail|)
  {
    var a := AnswerHead + context + AnswerMid;
    var p := a + question + AnswerTail;
    assert p[..|AnswerHead|] == AnswerHead;
    assert p[|AnswerHead|..|AnswerHead| + |context|] == context;
    assert p[|a|..|a| + |question|] == question;
    p
  }

  /** The streamed request for a question and the retrieved chunks. */
  function AnswerRequest(question: string, docs: seq<string>): (r: ChatRequest)
    ensures r.model == AnswerModel && r.stream
    ensures |r.messages| == 2
    ensures r.messages[0] == Message(System, AnswerSystemMessage)
    ensures r.messages[1].role == User
    ensures Contains(r.messages[1].content, question)
  {
    var p := AnswerPrompt(Context(docs), question);
    assert OccursAt(p, question, |AnswerHead| + |Context(docs)| + |AnswerMid|);
    ChatRequest(AnswerModel, [Message(System, AnswerSystemMessage), Message(User, p)], true)
  }

  /** Every retrieved chunk reaches the user prompt verbatim, before the
      question. */
  lemma RetrievedChunkInPrompt(question: string, docs: seq<string>, i: nat)
    requires i < |docs|
    ensures OccursAt(AnswerRequest(question, docs).messages[1].content, docs[i],
                     |AnswerHead| + JoinOffset(ContextSeparator, docs, i))
    ensures |AnswerHead| + JoinOffset(ContextSeparator, docs, i) + |docs[i]|
            <= |AnswerHead| + |Context(docs)| + |AnswerMid|
  {
    var c := Context(docs);
    var p := AnswerPrompt(c, question);
    JoinAt(ContextSeparator, docs, i);
    OccursWithin(p, c, docs[i], |AnswerHead|, JoinOffset(ContextSeparator, docs, i));
  }

  /** Nothing retrieved: the context is empty and the question is asked
      all the same. */
  lemma EmptyRetrievalStillAsks(question: string)
    ensures AnswerRequest(question, []).messages[1].content == AnswerHead + AnswerMid + question + AnswerTail
  {
  }

  /** `stream_answer_from_docs`: retrieve the top three chunks for the
      question, ask, and hand back the non-empty delta contents in
      arrival order. An exception from loading or searching the index is
      raised before anything is yielded; one from the completion ends the
      stream after what it already yielded. */
  function StreamAnswerFromDocs(question: string, search: (string, nat) -> Result<seq<string>, Exc>,
                                complete: ChatRequest -> ChunkStream): (r: Yielded)
    ensures search(question, RetrievalK).Err? ==> r == Yielded([], Some(search(question, RetrievalK).error))
    ensures search(question, RetrievalK).Ok? ==>
      var s := complete(AnswerRequest(question, search(question, RetrievalK).value));
      && (forall i :: 0 <= i < |r.fragments| ==> r.fragments[i] != "")
      && r.fragments == Filter(NonEmpty, Contents(s.chunks))
      && r.raised == s.failure
  {
    match search(question, RetrievalK)
    case Err(e) => Yielded([], Some(e))
    case Ok(docs) => FilterStream(complete(AnswerRequest(question, docs)))
  }
}
