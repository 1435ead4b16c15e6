/** The voice page (pages/4_Speak.py): the microphone frame buffer, and
    the conversation history kept in the Streamlit session state.

    Transcription (Whisper), the chat completion and text-to-speech are
    oracles: `transcribe` gives the text Whisper returns for a recording,
    `complete` the content of the first choice's message for a request
    (`None` when the message has none), and `speak` whether voicing the
    reply succeeds; each may instead raise. An exception ends the run of
    the page script where it is raised. WAV encoding is abstract: a
    recording is its sample rate and its samples. */
module Speak {
  import opened Wrappers
  import opened ErrorHandler
  import opened Text
  import opened Chat

  /** An `av.AudioFrame`: its sample rate and the rows of the array
      `to_ndarray()` gives. */
  datatype AudioFrame = AudioFrame(sampleRate: int, rows: seq<seq<int>>)

  /** What `sf.write` encodes: the rate and the samples in order. */
  datatype Wav = Wav(sampleRate: int, samples: seq<int>)

  /** Row-major flattening (`ndarray.flatten()`), which is also
      `np.concatenate` of a list of 1-D arrays. */
  function Flatten(rows: seq<seq<int>>): (r: seq<int>)
    ensures rows == [] ==> r == []
    ensures |rows| == 1 ==> r == rows[0]
  {
    if rows == [] then [] else rows[0] + Flatten(rows[1..])
  }

  /** Flattening keeps the order of the rows: flattening a concatenation
      concatenates the flattenings. */
  lemma {:induction false} FlattenAppend(a: seq<seq<int>>, b: seq<seq<int>>)
    ensures Flatten(a + b) == Flatten(a) + Flatten(b)
  {
    if a == [] {
      assert a + b == b;
    } else {
      assert (a + b)[1..] == a[1..] + b;
      FlattenAppend(a[1..], b);
    }
  }

  /** `WhisperAudioProcessor`: the flattened frames received since the
      last drain, and the rate of the latest frame. */
  class WhisperAudioProcessor {
    var buffer: seq<seq<int>>
    var sampleRate: Option<int>

    /** A buffered frame has set the rate, so a drained recording always
        has one. */
    predicate Valid()
      reads this
    {
      buffer != [] ==> sampleRate.Some?
    }

    constructor ()
      ensures buffer == [] && sampleRate == None
      ensures Valid()
    {
      buffer := [];
      sampleRate := None;
    }

    /** `recv(frame)`: records the frame's rate, appends its flattened
        samples and hands the frame back unchanged. */
    method Recv(frame: AudioFrame) returns (r: AudioFrame)
      requires Valid()
      modifies this
      ensures Valid()
      ensures r == frame
      ensures sampleRate == Some(frame.sampleRate)
      ensures buffer == old(buffer) + [Flatten(frame.rows)]
    {
      sampleRate := Some(frame.sampleRate);
      var pcm := Flatten(frame.rows);
      buffer := buffer + [pcm];
      r := frame;
    }

    /** `get_wav_bytes()`: nothing when nothing was buffered; otherwise
        every buffered sample in arrival order, at the latest rate, and
        the buffer is emptied. */
    method GetWavBytes() returns (wav: Option<Wav>)
      requires Valid()
      modifies this
      ensures Valid()
      ensures sampleRate == old(sampleRate)
      ensures old(buffer) == [] ==> wav == None && buffer == []
      ensures old(buffer) != [] ==> wav == Some(Wav(old(sampleRate).value, Flatten(old(buffer)))) && buffer == []
    {
      if buffer == [] {
        return None;
      }
      var audio := Flatten(buffer);
      wav := Some(Wav(sampleRate.value, audio));
      buffer := [];
    }
  }

  /** Two frames then a drain: the recording holds the first frame's
      samples then the second's, at the second's rate, and a second drain
      straight after gives nothing. */
  method RecordTwoFramesAndDrain(p: WhisperAudioProcessor, f1: AudioFrame, f2: AudioFrame)
    returns (first: Option<Wav>, second: Option<Wav>)
    requires p.Valid() && p.buffer == []
    modifies p
    ensures first == Some(Wav(f2.sampleRate, Flatten(f1.rows) + Flatten(f2.rows)))
    ensures second == None
    ensures p.Valid() && p.buffer == []
  {
    var _ := p.Recv(f1);
    var _ := p.Recv(f2);
    FlattenAppend([Flatten(f1.rows)], [Flatten(f2.rows)]);
    assert [Flatten(f1.rows)] + [Flatten(f2.rows)] == [Flatten(f1.rows), Flatten(f2.rows)];
    first := p.GetWavBytes();
    second := p.GetWavBytes();
  }

  /** What `get_wav_bytes` hands over for a buffer and a rate. */
  function Recording(buffer: seq<seq<int>>, sampleRate: Option<int>): (w: Option<Wav>)
    ensures w.Some? <==> buffer != [] && sampleRate.Some?
  {
    if buffer == [] || sampleRate.None? then None else Some(Wav(sampleRate.value, Flatten(buffer)))
  }

  const MentorModel := "gpt-4o-mini"
  const MentorSystemMessage := "You are a helpful project mentor."

  /** The completion request for a history: the system message, which is
      never stored, then every stored turn. */
  function MentorRequest(history: seq<Message>): (r: ChatRequest)
    ensures r.model == MentorModel && !r.stream
    ensures |r.messages| == |history| + 1
    ensures r.messages[0] == Message(System, MentorSystemMessage) && r.messages[1..] == history
  {
    ChatRequest(MentorModel, [Message(System, MentorSystemMessage)] + history, false)
  }

  /** `str(e)` of the `AttributeError` that `.strip()` on `None` raises. */
  const NoneStripMessage := "'NoneType' object has no attribute 'strip'"

  /** `completion_resp.choices[0].message.content.strip()`: the stripped
      reply, or the exception of the call or of stripping `None`. */
  function Reply(r: Result<Option<string>, Exc>): (reply: Result<string, Exc>)
    ensures r.Ok? && r.value.Some? <==> reply.Ok?
    ensures reply.Ok? ==> reply.value == Strip(r.value.value)
    ensures r.Err? ==> reply == Err(r.error)
    ensures r == Ok(None) ==> reply == Err(Builtin("AttributeError", NoneStripMessage))
  {
    match r
    case Err(e) => Err(e)
    case Ok(None) => Err(Builtin("AttributeError", NoneStripMessage))
    case Ok(Some(content)) => Ok(Strip(content))
  }

  /** Completed exchanges: user turn, assistant turn, and so on. */
  predicate Alternates(h: seq<Message>)
  {
    |h| % 2 == 0 && forall i :: 0 <= i < |h| ==> h[i].role == (if i % 2 == 0 then User else Assistant)
  }

  /** An exchange appended to completed exchanges keeps them alternating. */
  lemma AlternatesExtend(h: seq<Message>, userText: string, assistantText: string)
    requires Alternates(h)
    ensures Alternates(h + [Message(User, userText), Message(Assistant, assistantText)])
  {
    var h' := h + [Message(User, userText), Message(Assistant, assistantText)];
    forall i | 0 <= i < |h'|
      ensures h'[i].role == (if i % 2 == 0 then User else Assistant)
    {
      if i >= |h| {
        assert i == |h| || i == |h| + 1;
      }
    }
  }

  /** `st.session_state`, as far as this page uses it. `history` is
      `None` while the key is absent. */
  class SessionState {
    var history: Option<seq<Message>>

    /** A fresh session: no history key. */
    constructor ()
      ensures history == None
    {
      history := None;
    }

    /** `if "history" not in st.session_state: st.session_state.history = []`. */
    method InitHistory()
      modifies this
      ensures old(history).None? ==> history == Some([])
      ensures old(history).Some? ==> history == old(history)
    {
      if history.None? {
        history := Some([]);
      }
    }

    /** One recording handled: the stripped transcript is appended as the
        user turn, the model is asked with the system message followed by
        the whole history, and the stripped reply is appended as the
        assistant turn. When the completion raises, or its content is
        `None`, the user turn stays without a reply. */
    method HandleUtterance(transcript: string, complete: ChatRequest -> Result<Option<string>, Exc>)
      returns (request: ChatRequest, reply: Result<string, Exc>)
      requires history.Some?
      modifies this
      ensures request == MentorRequest(old(history).value + [Message(User, Strip(transcript))])
      ensures reply == Reply(complete(request))
      ensures reply.Ok? ==>
        history == Some(old(history).value + [Message(User, Strip(transcript)), Message(Assistant, reply.value)])
      ensures reply.Err? ==> history == Some(old(history).value + [Message(User, Strip(transcript))])
      ensures Alternates(old(history).value) ==> (Alternates(history.value) <==> reply.Ok?)
    {
      var before := history.value;
      var userText := Strip(transcript);
      history := Some(before + [Message(User, userText)]);
      request := ChatRequest(MentorModel, [Message(System, MentorSystemMessage)] + history.value, false);
      reply := Reply(complete(request));
      if reply.Ok? {
        history := Some(history.value + [Message(Assistant, reply.value)]);
        assert history.value == before + [Message(User, userText), Message(Assistant, reply.value)];
        if Alternates(before) {
          AlternatesExtend(before, userText, reply.value);
        }
      } else {
        assert |history.value| % 2 != |before| % 2;
      }
    }

    /** The "New conversation" button. */
    method NewConversation()
      modifies this
      ensures history == Some([])
    {
      history := Some([]);
    }
  }

  /** What one run of the page script leaves: the history, the completion
      requests made, and whether the run ended by an exception. */
  datatype PageResult = PageResult(history: seq<Message>, requests: seq<ChatRequest>, outcome: Outcome<Exc>)

  /** One run of the page script from history `h`, given what the stopped
      stream's processor drained (`None` while the stream plays, when
      there is no processor, or when no audio was buffered). The "New
      conversation" button is handled last, so an exception earlier in
      the run skips it. */
  function PageRun(h: seq<Message>, recording: Option<Wav>, newConversationClicked: bool,
                   transcribe: Wav -> Result<string, Exc>,
                   complete: ChatRequest -> Result<Option<string>, Exc>,
                   speak: string -> Outcome<Exc>): PageResult
  {
    if recording.None? then
      PageResult(if newConversationClicked then [] else h, [], Pass)
    else
      match transcribe(recording.value)
      case Err(e) => PageResult(h, [], Fail(e))
      case Ok(transcript) =>
        var withUser := h + [Message(User, Strip(transcript))];
        var request := MentorRequest(withUser);
        match Reply(complete(request))
        case Err(e) => PageResult(withUser, [request], Fail(e))
        case Ok(answer) =>
          var withReply := withUser + [Message(Assistant, answer)];
          match speak(answer)
          case Fail(e) => PageResult(withReply, [request], Fail(e))
          case Pass => PageResult(if newConversationClicked then [] else withReply, [request], Pass)
  }

  /** The history is never truncated: unless "New conversation" reset it,
      a run extends it by at most one user turn and one assistant turn,
      and asks at most once. Only a run that finishes resets it. */
  lemma PageRunOnlyAppends(h: seq<Message>, recording: Option<Wav>, clicked: bool,
                           transcribe: Wav -> Result<string, Exc>,
                           complete: ChatRequest -> Result<Option<string>, Exc>,
                           speak: string -> Outcome<Exc>)
    ensures var r := PageRun(h, recording, clicked, transcribe, complete, speak);
      && |r.requests| <= 1
      && (r.history == [] && h != [] ==> clicked && r.outcome.Pass?)
      && (!(clicked && r.outcome.Pass?) ==> h <= r.history && |r.history| <= |h| + 2)
      && (recording.None? ==> r.requests == [] && r.outcome.Pass?)
  {
  }

  /** A run that asks sends the system message and the whole history up
      to the new user turn, which carries the stripped transcript; the
      system message is never stored. */
  lemma PageRunAsksWithHistory(h: seq<Message>, recording: Option<Wav>, clicked: bool,
                               transcribe: Wav -> Result<string, Exc>,
                               complete: ChatRequest -> Result<Option<string>, Exc>,
                               speak: string -> Outcome<Exc>)
    ensures var r := PageRun(h, recording, clicked, transcribe, complete, speak);
      |r.requests| == 1 <==> recording.Some? && transcribe(recording.value).Ok?
    ensures var r := PageRun(h, recording, clicked, transcribe, complete, speak);
      |r.requests| == 1 ==>
        && r.requests[0].messages[0] == Message(System, MentorSystemMessage)
        && r.requests[0].messages[1..|h| + 1] == h
        && r.requests[0].messages[|h| + 1] == Message(User, Strip(transcribe(recording.value).value))
        && |r.requests[0].messages| == |h| + 2
  {
    var r := PageRun(h, recording, clicked, transcribe, complete, speak);
    if |r.requests| == 1 {
      var withUser := h + [Message(User, Strip(transcribe(recording.value).value))];
      assert r.requests[0] == MentorRequest(withUser);
      assert withUser[..|h|] == h;
    }
  }

  /** A run that finishes without the reset adds a whole exchange when it
      asked: completed exchanges stay completed. A run whose completion
      failed leaves a user turn without a reply, so the next run starts
      from a history that does not alternate. */
  lemma PageRunExchanges(h: seq<Message>, recording: Option<Wav>, clicked: bool,
                         transcribe: Wav -> Result<string, Exc>,
                         complete: ChatRequest -> Result<Option<string>, Exc>,
                         speak: string -> Outcome<Exc>)
    requires Alternates(h)
    ensures var r := PageRun(h, recording, clicked, transcribe, complete, speak);
      |r.history| != |h| + 1 ==> Alternates(r.history)
    ensures var r := PageRun(h, recording, clicked, transcribe, complete, speak);
      |r.history| == |h| + 1 ==>
        && r.outcome.Fail? && |r.requests| == 1
        && r.history[|h|].role == User
        && !Alternates(r.history)
  {
    var r := PageRun(h, recording, clicked, transcribe, complete, speak);
    if recording.Some? && transcribe(recording.value).Ok? {
      var u := Strip(transcribe(recording.value).value);
      var request := MentorRequest(h + [Message(User, u)]);
      if Reply(complete(request)).Ok? {
        AlternatesExtend(h, u, Reply(complete(request)).value);
        assert h + [Message(User, u)] + [Message(Assistant, Reply(complete(request)).value)]
            == h + [Message(User, u), Message(Assistant, Reply(complete(request)).value)];
      }
    }
  }

  /** One run of the page script: make sure the history exists; when the
      stream has stopped and a processor exists, drain it and, if there
      was audio, transcribe it, ask, and voice the reply; then apply the
      "New conversation" button. */
  method RunPage(state: SessionState, processor: WhisperAudioProcessor?, playing: bool, newConversationClicked: bool,
                 transcribe: Wav -> Result<string, Exc>,
                 complete: ChatRequest -> Result<Option<string>, Exc>,
                 speak: string -> Outcome<Exc>)
    returns (requests: seq<ChatRequest>, outcome: Outcome<Exc>)
    requires processor != null ==> processor.Valid()
    modifies state, processor
    ensures processor != null ==> processor.Valid() && processor.sampleRate == old(processor.sampleRate)
    // A stopped stream's processor is drained; a playing one is left alone.
    ensures processor != null && !playing ==> processor.buffer == []
    ensures processor != null && playing ==> processor.buffer == old(processor.buffer)
    ensures
      var recording := if processor != null && !playing then Recording(old(processor.buffer), old(processor.sampleRate)) else None;
      var h := if old(state.history).Some? then old(state.history).value else [];
      var r := PageRun(h, recording, newConversationClicked, transcribe, complete, speak);
      && state.history == Some(r.history)
      && requests == r.requests
      && outcome == r.outcome
  {
    requests, outcome := [], Pass;
    state.InitHistory();
    ghost var h := state.history.value;
    if !playing && processor != null {
      var wav := processor.GetWavBytes();
      if wav.Some? {
        var transcript := transcribe(wav.value);
        if transcript.Err? {
          return [], Fail(transcript.error);
        }
        var request, reply := state.HandleUtterance(transcript.value, complete);
        requests := [request];
        if reply.Err? {
          return requests, Fail(reply.error);
        }
        assert state.history.value == h + [Message(User, Strip(transcript.value))] + [Message(Assistant, reply.value)];
        var spoken := speak(reply.value);
        if spoken.Fail? {
          return requests, spoken;
        }
      }
    }
    if newConversationClicked {
      state.NewConversation();
    }
  }
}
