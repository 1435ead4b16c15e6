/** Email drafting (email_generator/generator.py): the prompt template,
    the streamed completion request and the fragments handed back. */
module Generator {
  import opened Wrappers
  import opened Text
  import opened Seqs
  import opened Chat

  const EmailModel := "gpt-4"
  const EmailSystemMessage := "You write high-quality emails for professionals."

  /** The fixed pieces of the prompt template, around the tone, the
      purpose and the input text. */
  const PromptHead := "\nYou are a helpful assistant that writes emails in a "
  const PromptAfterTone := " tone for business use.\n\nPurpose: "
  const PromptAfterPurpose := "\nInput:\n"
  const PromptTail := "\n\nWrite the full email, including greeting and sign-off.\n"

  /** The user prompt: the tone lower-cased, then the purpose and the
      input text verbatim, each at a fixed place after the one before. */
  function EmailPrompt(inputText: string, tone: string, purpose: string): (p: string)
    ensures OccursAt(p, PromptHead, 0)
    ensures OccursAt(p, Lower(tone), |PromptHead|)
    ensures OccursAt(p, purpose, |PromptHead| + |tone| + |PromptAfterTone|)
    ensures OccursAt(p, inputText, |PromptHead| + |tone| + |PromptAfterTone| + |purpose| + |PromptAfterPurpose|)
    ensures OccursAt(p, PromptTail, |p| - |PromptTail|)
  {
    var a := PromptHead + Lower(tone) + PromptAfterTone;
    var b := a + purpose + PromptAfterPurpose;
    var p := b + inputText + PromptTail;
    assert p[..|PromptHead|] == PromptHead;
    assert p[|PromptHead|..|PromptHead| + |tone|] == Lower(tone);
    assert p[|a|..|a| + |purpose|] == purpose;
    assert p[|b|..|b| + |inputText|] == inputText;
    p
  }

  /** The tone enters the prompt only through its lower-case form. */
  lemma EmailPromptToneCaseInsensitive(inputText: string, tone1: string, tone2: string, purpose: string)
    requires Lower(tone1) == Lower(tone2)
    ensures EmailPrompt(inputText, tone1, purpose) == EmailPrompt(inputText, tone2, purpose)
  {
  }

  /** The streamed request: model "gpt-4", a fixed system message followed
      by the user prompt. */
  function EmailRequest(inputText: string, tone: string, purpose: string): (r: ChatRequest)
    ensures r.model == EmailModel && r.stream
    ensures |r.messages| == 2
    ensures r.messages[0] == Message(System, EmailSystemMessage)
    ensures r.messages[1].role == User
    ensures Contains(r.messages[1].content, inputText) && Contains(r.messages[1].content, purpose)
    ensures Contains(r.messages[1].content, Lower(tone))
  {
    var p := EmailPrompt(inputText, tone, purpose);
    assert OccursAt(p, Lower(tone), |PromptHead|);
    assert OccursAt(p, purpose, |PromptHead| + |tone| + |PromptAfterTone|);
    assert OccursAt(p, inputText, |PromptHead| + |tone| + |PromptAfterTone| + |purpose| + |PromptAfterPurpose|);
    ChatRequest(EmailModel, [Message(System, EmailSystemMessage), Message(User, p)], true)
  }

  /** `stream_generated_email`, with the client as the oracle `complete`:
      the non-empty delta contents of the stream the request gets back,
      in arrival order, then whatever exception ends that stream. */
  function StreamGeneratedEmail(inputText: string, tone: string, purpose: string,
                                complete: ChatRequest -> ChunkStream): (r: Yielded)
    ensures forall i :: 0 <= i < |r.fragments| ==> r.fragments[i] != ""
    ensures r.fragments == Filter(NonEmpty, Contents(complete(EmailRequest(inputText, tone, purpose)).chunks))
    ensures r.raised == complete(EmailRequest(inputText, tone, purpose)).failure
  {
    FilterStream(complete(EmailRequest(inputText, tone, purpose)))
  }

  /** The fake client of the project's test, which streams "Hello" and
      " World" whatever it is asked. */
  function HelloWorldClient(request: ChatRequest): ChunkStream
  {
    ChunkStream([TextChunk("Hello"), TextChunk(" World")], None)
  }

  /** The test's expectation: exactly those two fragments, in order, and
      no exception. */
  lemma StreamYieldsTokens()
    ensures StreamGeneratedEmail("input", "Friendly", "purpose", HelloWorldClient) == Yielded(["Hello", " World"], None)
  {
    var chunks := [TextChunk("Hello"), TextChunk(" World")];
    assert chunks[1..] == [TextChunk(" World")];
    assert StreamFragments(chunks) == ["Hello", " World"];
  }
}
