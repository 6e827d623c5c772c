/** The conversation session hook of frontend/hooks/useSession.ts: the
    transcript, the reply being streamed, the recording/active/playing flags,
    the elapsed-seconds counter and the reference to the audio client, with
    the event handlers the client calls and the actions the screen calls. */
module UseSession {
  import opened Wrappers
  import opened Types
  import Text
  import Seqs

  const Greeting := "Hello! I'm CureZ, your AI mentor. I'm here to listen and support you. What's on your mind today?"
  const ErrorReply := "Sorry, I encountered an error. Please try again."
  const ConnectFailedReply := "Sorry, I'm having trouble connecting. Please try again later."
  const ListeningText := "Listening..."
  const NotLoggedIn := "User must be logged in to start a session"

  /** A transcript entry as a heap object: the hook mutates the text of the
      reply being streamed in place (useSession.ts:78), so an entry has identity. */
  class Msg {
    var text: string
    const sender: Sender

    constructor (text: string, sender: Sender)
      ensures this.text == text && this.sender == sender
    {
      this.text := text;
      this.sender := sender;
    }
  }

  /** The values the screen renders for a sequence of entries. */
  function Snapshot(ms: seq<Msg>): (r: seq<Message>)
    reads ms
    ensures |r| == |ms|
  {
    if ms == [] then [] else [Message(ms[0].text, ms[0].sender)] + Snapshot(ms[1..])
  }

  lemma {:induction false} SnapshotAt(ms: seq<Msg>, i: nat)
    requires i < |ms|
    ensures Snapshot(ms)[i] == Message(ms[i].text, ms[i].sender)
  {
    if i > 0 {
      SnapshotAt(ms[1..], i - 1);
    }
  }

  lemma Snapshot3(ms: seq<Msg>)
    requires |ms| == 3
    ensures Snapshot(ms) == [Message(ms[0].text, ms[0].sender), Message(ms[1].text, ms[1].sender),
                             Message(ms[2].text, ms[2].sender)]
  {
    SnapshotAt(ms, 0);
    SnapshotAt(ms, 1);
    SnapshotAt(ms, 2);
  }

  lemma {:induction false} SnapshotAppend(ms: seq<Msg>, m: Msg)
    ensures Snapshot(ms + [m]) == Snapshot(ms) + [Message(m.text, m.sender)]
  {
    if ms == [] {
      assert ms + [m] == [m];
    } else {
      assert (ms + [m])[1..] == ms[1..] + [m];
      SnapshotAppend(ms[1..], m);
    }
  }

  predicate NotListening(m: Message) {
    m.text != ListeningText
  }

  /** `prev.filter((msg) => msg.text !== "Listening...")` on the entry objects. */
  function WithoutListening(ms: seq<Msg>): (r: seq<Msg>)
    reads ms
    ensures forall m :: m in r ==> m in ms
    ensures Snapshot(r) == Seqs.Filter(NotListening, Snapshot(ms))
  {
    if ms == [] then []
    else
      var rest := WithoutListening(ms[1..]);
      assert Snapshot(ms)[1..] == Snapshot(ms[1..]);
      if ms[0].text != ListeningText then [ms[0]] + rest else rest
  }

  /** The text accumulated for the reply being streamed, given the accumulation
      so far (None: no reply open) and the next chunk: a blank chunk changes
      nothing, the first chunk is taken as it is, a later one is trimmed and
      added after one space (useSession.ts:71-84). */
  function Accumulate(acc: Option<string>, chunk: string): Option<string> {
    if Text.Strip(Text.JavaScript, chunk) == [] then acc
    else if acc.None? then Some(chunk)
    else Some(acc.value + " " + Text.Strip(Text.JavaScript, chunk))
  }

  /** The accumulation over a run of chunks of one turn, in arrival order. */
  function AccumulateAll(acc: Option<string>, chunks: seq<string>): Option<string>
    decreases |chunks|
  {
    if chunks == [] then acc else AccumulateAll(Accumulate(acc, chunks[0]), chunks[1..])
  }

  predicate NonBlank(s: string) {
    Text.Strip(Text.JavaScript, s) != []
  }

  function StripAll(ss: seq<string>): (r: seq<string>)
    ensures |r| == |ss| && forall i :: 0 <= i < |ss| ==> r[i] == Text.Strip(Text.JavaScript, ss[i])
  {
    if ss == [] then [] else [Text.Strip(Text.JavaScript, ss[0])] + StripAll(ss[1..])
  }

  /** Continuing an open reply adds the trimmed non-blank chunks, each after one space. */
  lemma {:induction false} AccumulateContinues(acc: string, chunks: seq<string>)
    ensures AccumulateAll(Some(acc), chunks)
         == Some(Seqs.Join([acc] + StripAll(Seqs.Filter(NonBlank, chunks)), " "))
    decreases |chunks|
  {
    if chunks == [] {
    } else {
      var c := chunks[0];
      var rest := Seqs.Filter(NonBlank, chunks[1..]);
      if NonBlank(c) {
        var acc' := acc + " " + Text.Strip(Text.JavaScript, c);
        AccumulateContinues(acc', chunks[1..]);
        assert Seqs.Filter(NonBlank, chunks) == [c] + rest;
        assert StripAll([c] + rest) == [Text.Strip(Text.JavaScript, c)] + StripAll(rest);
        JoinShift(acc, Text.Strip(Text.JavaScript, c), StripAll(rest));
      } else {
        AccumulateContinues(acc, chunks[1..]);
      }
    }
  }

  lemma JoinShift(a: string, b: string, rest: seq<string>)
    ensures Seqs.Join([a + " " + b] + rest, " ") == Seqs.Join([a] + ([b] + rest), " ")
  {
    if rest == [] {
      assert ([a] + [b])[1..] == [b];
    } else {
      assert ([a + " " + b] + rest)[1..] == rest;
      assert ([a] + ([b] + rest))[1..] == [b] + rest;
      assert ([b] + rest)[1..] == rest;
    }
  }

  /** The text of one streamed reply: the first non-blank chunk as it arrived,
      then every later non-blank chunk trimmed, separated by single spaces; no
      reply opens while every chunk is blank. */
  lemma {:induction false} AccumulateTurn(chunks: seq<string>)
    ensures var nb := Seqs.Filter(NonBlank, chunks);
      AccumulateAll(None, chunks)
        == if nb == [] then None else Some(Seqs.Join([nb[0]] + StripAll(nb[1..]), " "))
    decreases |chunks|
  {
    if chunks != [] {
      var c := chunks[0];
      if NonBlank(c) {
        AccumulateContinues(c, chunks[1..]);
        assert Seqs.Filter(NonBlank, chunks) == [c] + Seqs.Filter(NonBlank, chunks[1..]);
      } else {
        AccumulateTurn(chunks[1..]);
      }
    }
  }

  /** The part of the hook's state other than the transcript. */
  datatype Status = Status(isRecording: bool, sessionActive: bool, sessionSeconds: nat,
                           isAudioPlaying: bool, inputMode: InputMode)

  class Session {
    /** The transcript (the messages state the hook writes through setMessages). */
    var messages: seq<Msg>
    var isRecording: bool
    var sessionSeconds: nat
    var sessionActive: bool
    var isAudioPlaying: bool
    var inputMode: InputMode
    /** audioClientRef.current */
    var client: AudioClient?
    /** The client whose event handlers the last successful initialisation installed. */
    var wired: AudioClient?
    /** The closure variables currentResponseText and currentResponseElement of those handlers. */
    var responseText: string
    var responseElement: Msg?

    ghost predicate Valid()
      reads this, responseElement
    {
      && (isRecording ==> client != null)
      && (client != null ==> client == wired)
      && (responseElement != null ==> responseElement.sender == AssistantSender && responseElement.text == responseText)
      && (responseElement == null ==> responseText == "")
    }

    function Transcript(): seq<Message>
      reads this, messages
    {
      Snapshot(messages)
    }

    /** The transcript is the old one followed by one new entry object holding `m`. */
    twostate predicate Appended(m: Message)
      reads this, messages
    {
      && |messages| == |old(messages)| + 1 && messages[..|old(messages)|] == old(messages)
      && fresh(messages[|old(messages)|])
      && messages[|old(messages)|].text == m.text && messages[|old(messages)|].sender == m.sender
    }

    function CurrentStatus(): Status
      reads this
    {
      Status(isRecording, sessionActive, sessionSeconds, isAudioPlaying, inputMode)
    }

    /** The reply text accumulated so far, None when no reply is open. */
    function Accumulated(): Option<string>
      reads this
    {
      if responseElement == null then None else Some(responseText)
    }

    /** The state endSession leaves behind. */
    predicate Ended()
      reads this
    {
      client == null && !isRecording && !sessionActive && sessionSeconds == 0 && messages == []
    }

    constructor ()
      ensures Valid()
      ensures Transcript() == [] && client == null && wired == null && Accumulated() == None
      ensures CurrentStatus() == Status(false, false, 0, false, Audio)
    {
      messages := [];
      isRecording, sessionSeconds, sessionActive, isAudioPlaying := false, 0, false, false;
      inputMode := Audio;
      client, wired := null, null;
      responseText, responseElement := "", null;
    }

    /** The one-second timer, which runs while the session is active (useSession.ts:20-36). */
    method Tick()
      requires Valid()
      modifies this
      ensures Valid()
      ensures sessionSeconds == old(sessionSeconds) + if old(sessionActive) then 1 else 0
      ensures isRecording == old(isRecording) && sessionActive == old(sessionActive)
      ensures isAudioPlaying == old(isAudioPlaying) && inputMode == old(inputMode)
      ensures messages == old(messages) && client == old(client) && wired == old(wired)
      ensures responseText == old(responseText) && responseElement == old(responseElement)
    {
      if sessionActive {
        sessionSeconds := sessionSeconds + 1;
      }
    }

    /** initializeAudioClient: refuses without a logged-in user before any client
        exists; otherwise builds a client, gives it the user id and connects. A
        failed connection appends the fallback message and leaves the client
        reference as it was; a successful one installs fresh handlers (with an
        empty accumulation) and stores the client. */
    method InitializeAudioClient(currentUser: Option<User>) returns (r: Result<(), string>)
      requires Valid()
      modifies this
      ensures Valid()
      ensures (currentUser.None? || currentUser.value.uid == "") <==> r.Err?
      ensures r.Err? ==> r.error == NotLoggedIn && unchanged(this)
      ensures r.Ok? ==> fresh(client) || client == old(client)
      ensures r.Ok? && fresh(client) ==>
        && client.userId == currentUser.value.uid && client.connected && !client.recording
        && client.sentTexts == [] && client.interrupts == 0
        && wired == client && Accumulated() == None
        && messages == old(messages)
      ensures r.Ok? && !fresh(client) ==>
        && Appended(Message(ConnectFailedReply, AssistantSender)) && Transcript() == old(Transcript()) + [Message(ConnectFailedReply, AssistantSender)]
        && wired == old(wired) && responseText == old(responseText) && responseElement == old(responseElement)
      ensures CurrentStatus() == old(CurrentStatus())
    {
      if currentUser.None? || currentUser.value.uid == "" {
        return Err(NotLoggedIn);
      }
      var audioClient := new AudioClient();
      audioClient.SetUserId(currentUser.value.uid);
      var ok := audioClient.Connect();
      if !ok {
        ReportConnectFailure();
      } else {
        Install(audioClient);
      }
      return Ok(());
    }

    /** The catch branch of initializeAudioClient. */
    method ReportConnectFailure()
      requires Valid()
      modifies this
      ensures Valid()
      ensures Appended(Message(ConnectFailedReply, AssistantSender)) && Transcript() == old(Transcript()) + [Message(ConnectFailedReply, AssistantSender)]
      ensures client == old(client) && wired == old(wired)
      ensures responseText == old(responseText) && responseElement == old(responseElement)
      ensures CurrentStatus() == old(CurrentStatus())
    {
      var m := new Msg(ConnectFailedReply, AssistantSender);
      SnapshotAppend(messages, m);
      messages := messages + [m];
    }

    /** Installing the handlers on a connected client (with a fresh, empty
        accumulation) and storing it in the reference. */
    method Install(c: AudioClient)
      requires Valid()
      modifies this
      ensures Valid()
      ensures client == c && wired == c && Accumulated() == None
      ensures messages == old(messages) && CurrentStatus() == old(CurrentStatus())
    {
      responseText, responseElement := "", null;
      wired := c;
      client := c;
    }

    /** onReady: the session becomes active and the transcript is exactly the greeting. */
    method OnReady()
      requires Valid()
      modifies this
      ensures Valid()
      ensures |messages| == 1 && fresh(messages[0]) && Transcript() == [Message(Greeting, AssistantSender)]
      ensures sessionActive
      ensures isRecording == old(isRecording) && sessionSeconds == old(sessionSeconds)
      ensures isAudioPlaying == old(isAudioPlaying) && inputMode == old(inputMode)
      ensures client == old(client) && wired == old(wired)
      ensures responseText == old(responseText) && responseElement == old(responseElement)
    {
      sessionActive := true;
      var g := new Msg(Greeting, AssistantSender);
      messages := [g];
    }

    /** onAudioReceived: playback is under way. */
    method OnAudioReceived()
      requires Valid()
      modifies this
      ensures Valid()
      ensures isAudioPlaying
      ensures isRecording == old(isRecording) && sessionActive == old(sessionActive)
      ensures sessionSeconds == old(sessionSeconds) && inputMode == old(inputMode)
      ensures messages == old(messages) && client == old(client) && wired == old(wired)
      ensures responseText == old(responseText) && responseElement == old(responseElement)
    {
      isAudioPlaying := true;
    }

    /** onTextReceived. A blank chunk changes nothing. The first chunk of a
        reply appends one new assistant entry object holding the chunk, which
        becomes the open reply. A later chunk extends the accumulation and
        writes it into the open entry object, wherever that object stands in
        the transcript (the frame allows no other entry object to change), and
        overwrites the LAST slot with a fresh copy of it, so the transcript
        keeps its length; on an empty transcript only the open object changes. */
    method OnTextReceived(text: string)
      requires Valid()
      modifies this, responseElement
      ensures Valid()
      ensures Accumulated() == Accumulate(old(Accumulated()), text)
      ensures CurrentStatus() == old(CurrentStatus()) && client == old(client) && wired == old(wired)
      ensures !NonBlank(text) ==> messages == old(messages) && responseElement == old(responseElement)
      ensures NonBlank(text) && old(responseElement) == null ==>
        fresh(responseElement) && messages == old(messages) + [responseElement]
      ensures NonBlank(text) && old(responseElement) != null ==>
        && responseElement == old(responseElement)
        && |messages| == |old(messages)|
        && (|messages| > 0 ==>
              && messages[..|messages| - 1] == old(messages)[..|messages| - 1]
              && fresh(messages[|messages| - 1])
              && messages[|messages| - 1].text == responseText
              && messages[|messages| - 1].sender == AssistantSender)
    {
      ghost var acc := Accumulated();
      if Text.Strip(Text.JavaScript, text) != [] {
        if responseElement == null {
          OpenReply(text);
          assert Accumulate(acc, text) == Some(text);
        } else {
          ExtendReply(text);
          assert Accumulate(acc, text) == Some(acc.value + " " + Text.Strip(Text.JavaScript, text));
        }
      }
    }

    /** The first chunk of a reply: a new entry holding it is appended and becomes the open reply. */
    method OpenReply(text: string)
      requires Valid() && responseElement == null
      modifies this
      ensures Valid()
      ensures Accumulated() == Some(text)
      ensures CurrentStatus() == old(CurrentStatus()) && client == old(client) && wired == old(wired)
      ensures fresh(responseElement) && messages == old(messages) + [responseElement]
    {
      responseText := text;
      var e := new Msg(text, AssistantSender);
      responseElement := e;
      messages := messages + [e];
    }

    /** A later chunk: the open entry object gets the extended text and the last
        slot of the transcript is overwritten with a copy of it. */
    method ExtendReply(text: string)
      requires Valid() && responseElement != null
      modifies this, responseElement
      ensures Valid()
      ensures Accumulated() == Some(old(responseText) + " " + Text.Strip(Text.JavaScript, text))
      ensures CurrentStatus() == old(CurrentStatus()) && client == old(client) && wired == old(wired)
      ensures responseElement == old(responseElement)
      ensures |messages| == |old(messages)|
      ensures |messages| > 0 ==>
        && messages[..|messages| - 1] == old(messages)[..|messages| - 1]
        && fresh(messages[|messages| - 1])
        && messages[|messages| - 1].text == responseText
        && messages[|messages| - 1].sender == AssistantSender
    {
      var t := Text.Strip(Text.JavaScript, text);
      responseText := responseText + " " + t;
      responseElement.text := responseText;
      if |messages| > 0 {
        var copy := new Msg(responseText, AssistantSender);
        messages := messages[..|messages| - 1] + [copy];
      }
    }

    /** onTurnComplete: playback stops and the next chunk opens a new reply. */
    method OnTurnComplete()
      requires Valid()
      modifies this
      ensures Valid()
      ensures !isAudioPlaying && Accumulated() == None
      ensures isRecording == old(isRecording) && sessionActive == old(sessionActive)
      ensures sessionSeconds == old(sessionSeconds) && inputMode == old(inputMode)
      ensures messages == old(messages) && client == old(client) && wired == old(wired)
    {
      isAudioPlaying := false;
      responseText, responseElement := "", null;
    }

    /** onError: one fallback assistant message is appended and the next chunk opens a new reply. */
    method OnError()
      requires Valid()
      modifies this
      ensures Valid()
      ensures Appended(Message(ErrorReply, AssistantSender)) && Transcript() == old(Transcript()) + [Message(ErrorReply, AssistantSender)]
      ensures Accumulated() == None
      ensures CurrentStatus() == old(CurrentStatus()) && client == old(client) && wired == old(wired)
    {
      var m := new Msg(ErrorReply, AssistantSender);
      SnapshotAppend(messages, m);
      messages := messages + [m];
      responseText, responseElement := "", null;
    }

    /** onInterrupted: playback stops, the client is told to interrupt, and the
        next chunk opens a new reply. */
    method OnInterrupted()
      requires Valid() && wired != null
      modifies this, wired
      ensures Valid()
      ensures !isAudioPlaying && Accumulated() == None
      ensures wired == old(wired) && wired.interrupts == old(wired.interrupts) + 1
      ensures wired.sentTexts == old(wired.sentTexts) && wired.recording == old(wired.recording)
      ensures wired.userId == old(wired.userId) && wired.connected == old(wired.connected)
      ensures wired.closed == old(wired.closed) && wired.inputMode == old(wired.inputMode)
      ensures isRecording == old(isRecording) && sessionActive == old(sessionActive)
      ensures sessionSeconds == old(sessionSeconds) && inputMode == old(inputMode)
      ensures messages == old(messages) && client == old(client)
    {
      isAudioPlaying := false;
      wired.Interrupt();
      responseText, responseElement := "", null;
    }

    /** startRecording: only with a client, and only when the microphone was
        granted (`started`), recording begins and one user "Listening..."
        message is appended; otherwise nothing of the hook changes. */
    method StartRecording() returns (ghost started: bool)
      requires Valid()
      modifies this, client
      ensures Valid()
      ensures client == old(client) && wired == old(wired)
      ensures started ==> old(client) != null
      ensures !started ==> unchanged(this)
      ensures client != null ==>
        && client.recording == (old(client.recording) || started)
        && client.userId == old(client.userId) && client.connected == old(client.connected)
        && client.closed == old(client.closed) && client.inputMode == old(client.inputMode)
        && client.sentTexts == old(client.sentTexts) && client.interrupts == old(client.interrupts)
      ensures started ==>
        && isRecording && client.recording
        && Appended(Message(ListeningText, UserSender)) && Transcript() == old(Transcript()) + [Message(ListeningText, UserSender)]
        && sessionActive == old(sessionActive) && sessionSeconds == old(sessionSeconds)
        && isAudioPlaying == old(isAudioPlaying) && inputMode == old(inputMode)
        && responseText == old(responseText) && responseElement == old(responseElement)
    {
      started := false;
      if client != null {
        var success := client.StartRecording();
        if success {
          started := true;
          AddListening();
        }
      }
    }

    /** Recording has begun: the flag is set and a "Listening..." entry appended. */
    method AddListening()
      requires Valid() && client != null
      modifies this
      ensures Valid()
      ensures isRecording && client == old(client) && wired == old(wired)
      ensures Appended(Message(ListeningText, UserSender)) && Transcript() == old(Transcript()) + [Message(ListeningText, UserSender)]
      ensures sessionActive == old(sessionActive) && sessionSeconds == old(sessionSeconds)
      ensures isAudioPlaying == old(isAudioPlaying) && inputMode == old(inputMode)
      ensures responseText == old(responseText) && responseElement == old(responseElement)
    {
      isRecording := true;
      var m := new Msg(ListeningText, UserSender);
      SnapshotAppend(messages, m);
      messages := messages + [m];
    }

    /** stopRecording: with a client, recording stops and every "Listening..."
        message is removed, the others keeping their order; without one, nothing changes. */
    method StopRecording()
      requires Valid()
      modifies this, client
      ensures Valid()
      ensures client == old(client) && wired == old(wired)
      ensures old(client) == null ==> unchanged(this)
      ensures old(client) != null ==>
        && !isRecording && !client.recording
        && client.sentTexts == old(client.sentTexts) && client.interrupts == old(client.interrupts)
        && client.userId == old(client.userId) && client.connected == old(client.connected)
        && client.closed == old(client.closed) && client.inputMode == old(client.inputMode)
        && Transcript() == Seqs.Filter(NotListening, old(Transcript()))
        && sessionActive == old(sessionActive) && sessionSeconds == old(sessionSeconds)
        && isAudioPlaying == old(isAudioPlaying) && inputMode == old(inputMode)
        && responseText == old(responseText) && responseElement == old(responseElement)
    {
      if client != null {
        client.StopRecording();
        DropListening();
      }
    }

    /** Recording has stopped: the flag is cleared and every "Listening..." entry removed. */
    method DropListening()
      requires Valid()
      modifies this
      ensures Valid()
      ensures !isRecording && client == old(client) && wired == old(wired)
      ensures Transcript() == Seqs.Filter(NotListening, old(Transcript()))
      ensures sessionActive == old(sessionActive) && sessionSeconds == old(sessionSeconds)
      ensures isAudioPlaying == old(isAudioPlaying) && inputMode == old(inputMode)
      ensures responseText == old(responseText) && responseElement == old(responseElement)
    {
      ghost var before := Transcript();
      var kept := WithoutListening(messages);
      assert Snapshot(kept) == Seqs.Filter(NotListening, before);
      isRecording := false;
      messages := kept;
    }

    /** endSession: stops any recording, closes and drops the client, and
        resets the active flag, the counter and the transcript. Calling it on
        an ended session changes nothing, so calling it twice is calling it once. */
    method EndSession()
      requires Valid()
      modifies this, client
      ensures Valid()
      ensures Ended()
      ensures old(client) != null ==> old(client).closed && !old(client).connected
      ensures old(client) != null ==> old(client).recording == (old(client.recording) && !old(isRecording))
      ensures old(client) != null ==>
        && old(client).userId == old(client.userId) && old(client).inputMode == old(client.inputMode)
        && old(client).sentTexts == old(client.sentTexts) && old(client).interrupts == old(client.interrupts)
      ensures isAudioPlaying == old(isAudioPlaying) && inputMode == old(inputMode) && wired == old(wired)
      ensures responseText == old(responseText) && responseElement == old(responseElement)
      ensures old(Ended()) ==> unchanged(this)
    {
      if isRecording {
        StopRecording();
      }
      if client != null {
        client.Close();
        client := null;
      }
      sessionActive := false;
      sessionSeconds := 0;
      messages := [];
    }

    /** sendTextMessage: with a client, the text goes to the client and one
        user message with it is appended; without one, nothing changes. */
    method SendTextMessage(message: string)
      requires Valid()
      modifies this, client
      ensures Valid()
      ensures client == old(client) && wired == old(wired)
      ensures old(client) == null ==> unchanged(this)
      ensures old(client) != null ==>
        && client.sentTexts == old(client.sentTexts) + [message]
        && client.recording == old(client.recording) && client.interrupts == old(client.interrupts)
        && client.userId == old(client.userId) && client.connected == old(client.connected)
        && client.closed == old(client.closed) && client.inputMode == old(client.inputMode)
        && Appended(Message(message, UserSender))
        && Transcript() == old(Transcript()) + [Message(message, UserSender)]
        && CurrentStatus() == old(CurrentStatus())
        && responseText == old(responseText) && responseElement == old(responseElement)
    {
      if client != null {
        client.SendTextMessage(message);
        var m := new Msg(message, UserSender);
        SnapshotAppend(messages, m);
        messages := messages + [m];
      }
    }

    /** setInputMode and the effect that forwards a changed mode to the current client. */
    method SetInputMode(mode: InputMode)
      requires Valid()
      modifies this, client
      ensures Valid()
      ensures inputMode == mode
      ensures client == old(client) && wired == old(wired) && messages == old(messages)
      ensures old(inputMode) != mode && client != null ==> client.inputMode == mode
      ensures old(inputMode) == mode && client != null ==> client.inputMode == old(client.inputMode)
      ensures client != null ==>
        && client.userId == old(client.userId) && client.connected == old(client.connected)
        && client.recording == old(client.recording) && client.closed == old(client.closed)
        && client.sentTexts == old(client.sentTexts) && client.interrupts == old(client.interrupts)
      ensures isRecording == old(isRecording) && sessionActive == old(sessionActive)
      ensures sessionSeconds == old(sessionSeconds) && isAudioPlaying == old(isAudioPlaying)
      ensures responseText == old(responseText) && responseElement == old(responseElement)
    {
      if mode != inputMode {
        inputMode := mode;
        if client != null {
          client.inputMode := mode;
        }
      }
    }
  }

  /** A logged-in user opens a session: either the connection fails and the
      transcript holds only the connection error, or the client is stored and
      the greeting arrives. */
  method StartConversation(user: User) returns (s: Session, connected: bool)
    requires user.uid != ""
    ensures fresh(s) && s.Valid() && (s.client != null ==> fresh(s.client))
    ensures !connected ==> s.Transcript() == [Message(ConnectFailedReply, AssistantSender)]
    ensures connected ==>
      && s.client != null && s.Accumulated() == None && s.sessionActive && s.client.sentTexts == []
      && |s.messages| == 1 && s.messages[0].text == Greeting && s.messages[0].sender == AssistantSender
  {
    s := new Session();
    var init := s.InitializeAudioClient(Some(user));
    connected := s.client != null;
    if connected {
      s.OnReady();
      SnapshotAt(s.messages, 0);
    }
  }

  /** A session run end to end: a logged-in user connects, the greeting
      arrives, a reply streams in as two non-blank chunks, the turn ends and
      the user types a message, which is the one text frame sent to the
      client (`sent`). When the connection fails the transcript holds only
      the connection error and nothing is sent. */
  method ConversationScenario(user: User, chunk1: string, chunk2: string, typed: string)
    returns (r: Result<seq<Message>, seq<Message>>, sent: seq<string>)
    requires user.uid != "" && NonBlank(chunk1) && NonBlank(chunk2)
    ensures r.Ok? ==> r.value == [Message(Greeting, AssistantSender),
                                  Message(chunk1 + " " + Text.Strip(Text.JavaScript, chunk2), AssistantSender),
                                  Message(typed, UserSender)]
    ensures r.Ok? ==> sent == [typed]
    ensures r.Err? ==> r.error == [Message(ConnectFailedReply, AssistantSender)] && sent == []
  {
    var s, connected := StartConversation(user);
    if !connected {
      return Err(s.Transcript()), [];
    }
    StreamTwoChunks(s, chunk1, chunk2);
    s.OnTurnComplete();
    s.SendTextMessage(typed);
    Snapshot3(s.messages);
    return Ok(s.Transcript()), s.client.sentTexts;
  }

  /** A reply streamed as two non-blank chunks after a one-entry transcript. */
  method StreamTwoChunks(s: Session, c1: string, c2: string)
    requires s.Valid() && |s.messages| == 1 && s.Accumulated() == None
    requires NonBlank(c1) && NonBlank(c2)
    modifies s
    ensures s.Valid() && s.client == old(s.client) && s.wired == old(s.wired)
    ensures |s.messages| == 2 && s.messages[0] == old(s.messages[0]) && s.messages[0].text == old(s.messages[0].text)
    ensures s.messages[1].text == c1 + " " + Text.Strip(Text.JavaScript, c2) && s.messages[1].sender == AssistantSender
  {
    s.OnTextReceived(c1);
    s.OnTextReceived(c2);
  }

  /** One more chunk at the end of a run extends the accumulation by that chunk. */
  lemma {:induction false} AccumulateAllSnoc(acc: Option<string>, chunks: seq<string>, c: string)
    ensures AccumulateAll(acc, chunks + [c]) == Accumulate(AccumulateAll(acc, chunks), c)
    decreases |chunks|
  {
    if chunks == [] {
      assert ([] + [c])[1..] == [];
    } else {
      assert (chunks + [c])[1..] == chunks[1..] + [c];
      AccumulateAllSnoc(Accumulate(acc, chunks[0]), chunks[1..], c);
    }
  }

  /** A whole reply streamed chunk by chunk, with no reply open before it:
      until a non-blank chunk arrives nothing changes; after that the earlier
      entries are untouched and exactly one assistant entry follows them,
      holding the first non-blank chunk and then every later non-blank chunk
      trimmed, separated by single spaces. */
  method StreamTurn(s: Session, chunks: seq<string>)
    requires s.Valid() && s.Accumulated() == None
    modifies s
    ensures s.Valid() && s.client == old(s.client) && s.wired == old(s.wired)
    ensures s.CurrentStatus() == old(s.CurrentStatus())
    ensures var nb := Seqs.Filter(NonBlank, chunks);
      && (nb == [] ==> s.messages == old(s.messages) && s.Accumulated() == None)
      && (nb != [] ==>
            var reply := Seqs.Join([nb[0]] + StripAll(nb[1..]), " ");
            && s.Accumulated() == Some(reply)
            && |s.messages| == |old(s.messages)| + 1
            && s.messages[..|old(s.messages)|] == old(s.messages)
            && s.Transcript() == old(s.Transcript()) + [Message(reply, AssistantSender)])
  {
    ghost var before := s.messages;
    StreamChunks(s, chunks);
    AccumulateTurn(chunks);
    if s.Accumulated().Some? {
      SnapshotExtended(before, s.messages);
    }
  }

  lemma SnapshotExtended(before: seq<Msg>, ms: seq<Msg>)
    requires |ms| == |before| + 1 && ms[..|before|] == before
    ensures Snapshot(ms) == Snapshot(before) + [Message(ms[|before|].text, ms[|before|].sender)]
  {
    assert ms == before + [ms[|before|]];
    SnapshotAppend(before, ms[|before|]);
  }

  /** The loop of a streamed reply: the accumulation is that of the chunks so
      far, and the reply, once open, is one entry after the earlier ones (the
      earlier entry objects are outside the frame, so they keep their texts). */
  method StreamChunks(s: Session, chunks: seq<string>)
    requires s.Valid() && s.Accumulated() == None
    modifies s
    ensures Streaming(s, old(s.messages), old(s.client), old(s.wired), old(s.CurrentStatus()), AccumulateAll(None, chunks))
  {
    ghost var before := s.messages;
    ghost var client, wired, status := s.client, s.wired, s.CurrentStatus();
    assert chunks[..0] == [];
    var i := 0;
    while i < |chunks|
      invariant 0 <= i <= |chunks|
      invariant Streaming(s, before, client, wired, status, AccumulateAll(None, chunks[..i]))
      invariant s.responseElement != null ==> fresh(s.responseElement)
    {
      StreamStep(s, chunks, i, before, client, wired, status);
      i := i + 1;
    }
    assert chunks[..i] == chunks;
  }

  /** Since `before`, either no reply is open and the transcript is as it was,
      or one entry follows the earlier ones and holds the open reply. */
  ghost predicate ReplyAfter(s: Session, before: seq<Msg>)
    reads s, s.messages
  {
    && (s.Accumulated().None? ==> s.messages == before)
    && (s.Accumulated().Some? ==>
          && |s.messages| == |before| + 1 && s.messages[..|before|] == before
          && s.messages[|before|].text == s.responseText && s.messages[|before|].sender == AssistantSender)
  }

  /** The state while a reply streams after `before`: the hook is valid, its
      client and status are the given ones, the accumulation is `acc`, and the
      reply follows the entries of `before`. */
  ghost predicate Streaming(s: Session, before: seq<Msg>, client: AudioClient?,
                            wired: AudioClient?, status: Status, acc: Option<string>)
    reads s, s.responseElement, s.messages
  {
    && s.Valid() && s.client == client && s.wired == wired && s.CurrentStatus() == status
    && s.Accumulated() == acc
    && ReplyAfter(s, before)
  }

  /** One chunk of a reply that opened after `before`. */
  method StreamStep(s: Session, chunks: seq<string>, i: nat, ghost before: seq<Msg>,
                    ghost client: AudioClient?, ghost wired: AudioClient?, ghost status: Status)
    requires i < |chunks|
    requires Streaming(s, before, client, wired, status, AccumulateAll(None, chunks[..i]))
    modifies s, s.responseElement
    ensures Streaming(s, before, client, wired, status, AccumulateAll(None, chunks[..i + 1]))
    ensures s.responseElement == old(s.responseElement) || fresh(s.responseElement)
  {
    AccumulateAllSnoc(None, chunks[..i], chunks[i]);
    assert chunks[..i + 1] == chunks[..i] + [chunks[i]];
    s.OnTextReceived(chunks[i]);
  }

  /** A message typed while a reply is streaming: the typed text is sent to
      the client, but the reply's next chunk overwrites the last slot, where
      the typed message stands, with a copy of the reply, while the reply's
      own entry object is updated in place. The transcript shows the reply
      twice and no longer shows the typed message. */
  method TextSentMidReply(user: User, chunk1: string, typed: string, chunk2: string)
    returns (r: Option<seq<Message>>)
    requires user.uid != "" && NonBlank(chunk1) && NonBlank(chunk2)
    ensures r.Some? ==>
      var reply := Message(chunk1 + " " + Text.Strip(Text.JavaScript, chunk2), AssistantSender);
      r.value == [Message(Greeting, AssistantSender), reply, reply]
  {
    var s, connected := StartConversation(user);
    if !connected {
      return None;
    }
    ghost var e := TypeDuringReply(s, chunk1, typed);
    NextChunkAfterTyping(s, e, chunk2);
    Snapshot3(s.messages);
    return Some(s.Transcript());
  }

  /** The next chunk after a typed message: the open entry, second, and the
      last slot both hold the extended reply. */
  method NextChunkAfterTyping(s: Session, ghost e: Msg, c2: string)
    requires s.Valid() && s.client != null && |s.messages| == 3
    requires e == s.messages[1] && e == s.responseElement && e != s.messages[0]
    requires NonBlank(c2)
    modifies s, s.responseElement
    ensures |s.messages| == 3 && s.messages[0] == old(s.messages[0]) && s.messages[0].text == old(s.messages[0].text)
    ensures var text := old(s.responseText) + " " + Text.Strip(Text.JavaScript, c2);
      && s.messages[1].text == text && s.messages[1].sender == AssistantSender
      && s.messages[2].text == text && s.messages[2].sender == AssistantSender
  {
    s.OnTextReceived(c2);
  }

  /** A first chunk, then a typed message: the open reply stands second and the typed message last. */
  method TypeDuringReply(s: Session, c1: string, typed: string) returns (ghost e: Msg)
    requires s.Valid() && s.client != null && |s.messages| == 1 && s.Accumulated() == None
    requires NonBlank(c1)
    modifies s, s.client
    ensures s.Valid() && s.client != null
    ensures |s.messages| == 3 && s.messages[0] == old(s.messages[0]) && s.messages[0].text == old(s.messages[0].text)
    ensures fresh(e) && e == s.messages[1] && e == s.responseElement && s.responseText == c1
  {
    s.OnTextReceived(c1);
    e := s.responseElement;
    s.SendTextMessage(typed);
  }
}
