/** The chat-completion request and the streamed response, as the email
    generator (email_generator/generator.py), the documentation chatbot
    (learnbot/chatbot.py) and the voice page (pages/4_Speak.py) use them.

    The completion service is an oracle: for a request it gives the
    sequence of chunks the stream delivers and, when the call or the
    stream raises, the exception raised after them. */
module Chat {
  import opened Wrappers
  import opened Seqs
  import opened ErrorHandler

  datatype Role = System | User | Assistant

  /** One `{"role": ..., "content": ...}` entry of `messages`. */
  datatype Message = Message(role: Role, content: string)

  /** The arguments of `client.chat.completions.create`. */
  datatype ChatRequest = ChatRequest(model: string, messages: seq<Message>, stream: bool)

  /** `choice.delta`, whose `content` may be `None`. */
  datatype Delta = Delta(content: Option<string>)

  /** One entry of `chunk.choices`; its `delta` may be missing (`None`). */
  datatype Choice = Choice(delta: Option<Delta>)

  /** One chunk of a streamed response. */
  datatype StreamChunk = StreamChunk(choices: seq<Choice>)

  /** What a streaming call delivers: the chunks that arrive, then the
      exception that ends the stream, if one does. An exception from
      `create` itself is a stream with no chunks. */
  datatype ChunkStream = ChunkStream(chunks: seq<StreamChunk>, failure: Option<Exc>)

  /** What a Python generator is seen to do: the values it yields, then
      the exception it raises instead of finishing, if any. */
  datatype Yielded = Yielded(fragments: seq<string>, raised: Option<Exc>)

  /** What the chunk would yield: `chunk.choices[0].delta.content` if
      there is a first choice with a delta, else nothing; the text may
      still be empty. */
  function ChunkContent(c: StreamChunk): (r: string)
    ensures r != "" ==> |c.choices| > 0 && c.choices[0].delta.Some?
    ensures r != "" ==> c.choices[0].delta.value.content == Some(r)
  {
    if |c.choices| > 0 && c.choices[0].delta.Some? && c.choices[0].delta.value.content.Some?
    then c.choices[0].delta.value.content.value
    else ""
  }

  /** The loop `for chunk in response: if chunk.choices and
      chunk.choices[0].delta and chunk.choices[0].delta.content: yield
      chunk.choices[0].delta.content`, shared by the generator and the
      chatbot: what it yields over the whole stream. */
  function StreamFragments(chunks: seq<StreamChunk>): (r: seq<string>)
    ensures |r| <= |chunks|
    ensures forall i :: 0 <= i < |r| ==> r[i] != ""
  {
    if chunks == [] then []
    else
      var c := ChunkContent(chunks[0]);
      (if c != "" then [c] else []) + StreamFragments(chunks[1..])
  }

  function NonEmpty(s: string): bool
  {
    s != ""
  }

  /** Each chunk's content, empty where the chunk carries none. */
  function Contents(chunks: seq<StreamChunk>): (r: seq<string>)
    ensures |r| == |chunks|
    ensures forall i :: 0 <= i < |chunks| ==> r[i] == ChunkContent(chunks[i])
  {
    seq(|chunks|, i requires 0 <= i < |chunks| => ChunkContent(chunks[i]))
  }

  /** The stream yields exactly the non-empty contents, in arrival order,
      and nothing else. */
  lemma {:induction false} StreamFragmentsSpec(chunks: seq<StreamChunk>)
    ensures StreamFragments(chunks) == Filter(NonEmpty, Contents(chunks))
  {
    if chunks != [] {
      StreamFragmentsSpec(chunks[1..]);
      assert Contents(chunks)[1..] == Contents(chunks[1..]);
    }
  }

  /** Hence the fragments keep the order in which the chunks arrived. */
  lemma StreamFragmentsInOrder(chunks: seq<StreamChunk>)
    ensures IsSubsequence(StreamFragments(chunks), Contents(chunks))
  {
    StreamFragmentsSpec(chunks);
    FilterIsSubsequence(NonEmpty, Contents(chunks));
  }

  /** Chunks are handled one at a time: a later chunk never changes what
      was already yielded for earlier ones. */
  lemma {:induction false} StreamFragmentsAppend(a: seq<StreamChunk>, b: seq<StreamChunk>)
    ensures StreamFragments(a + b) == StreamFragments(a) + StreamFragments(b)
  {
    if a == [] {
      assert a + b == b;
    } else {
      assert (a + b)[1..] == a[1..] + b;
      StreamFragmentsAppend(a[1..], b);
    }
  }

  /** A chunk whose only choice's delta has the given content. */
  function TextChunk(content: string): (c: StreamChunk)
    ensures ChunkContent(c) == content
  {
    StreamChunk([Choice(Some(Delta(Some(content))))])
  }

  /** Chunks with no choices, without a delta or with empty or missing
      content yield nothing. */
  lemma SkippedChunks(d: Delta)
    requires d.content == None || d.content == Some("")
    ensures StreamFragments([StreamChunk([])]) == []
    ensures StreamFragments([StreamChunk([Choice(None)])]) == []
    ensures StreamFragments([StreamChunk([Choice(Some(d))])]) == []
  {
  }

  /** The filter over a whole streamed response: the fragments of every
      chunk that arrived, then the stream's exception, unchanged. */
  function FilterStream(s: ChunkStream): (r: Yielded)
    ensures forall i :: 0 <= i < |r.fragments| ==> r.fragments[i] != ""
    ensures r.fragments == Filter(NonEmpty, Contents(s.chunks))
    ensures r.raised == s.failure
  {
    StreamFragmentsSpec(s.chunks);
    Yielded(StreamFragments(s.chunks), s.failure)
  }

  /** A stream that fails part-way has already yielded everything its
      chunks so far carry: exactly the beginning of what the stream would
      have yielded had it gone on with more chunks. */
  lemma FailureKeepsEarlierFragments(a: seq<StreamChunk>, b: seq<StreamChunk>, e: Exc, rest: Option<Exc>)
    ensures FilterStream(ChunkStream(a, Some(e))).raised == Some(e)
    ensures FilterStream(ChunkStream(a, Some(e))).fragments <= FilterStream(ChunkStream(a + b, rest)).fragments
  {
    StreamFragmentsAppend(a, b);
  }
}
