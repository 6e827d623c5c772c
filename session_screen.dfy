/** The conversation screen of frontend/components/Session.tsx: its own
    state (the text being typed and the input mode it shows), the actions
    its buttons and keys trigger on the session hook, and what it renders
    from the hook's state. */
module SessionScreen {
  import opened Types
  import Text
  import FormatTime
  import UseSession
  import Seqs

  /** Which side of the screen a transcript bubble sits on. */
  datatype Side = Left | Right

  datatype Bubble = Bubble(text: string, side: Side)

  /** The body of the message pane: a hint while the transcript is empty, otherwise one bubble per message. */
  datatype Pane = Placeholder | Bubbles(items: seq<Bubble>)

  /** The controls shown at the bottom of the screen. */
  datatype Control = ToggleMode | Mic | TextInput | Send | EndCall

  /** The other input mode (the keyboard and microphone buttons). */
  function Toggle(mode: InputMode): (r: InputMode)
    ensures r != mode
  {
    if mode.Audio? then InputMode.Text else Audio
  }

  /** Toggling twice returns to the mode one started from. */
  lemma ToggleTwice(mode: InputMode)
    ensures Toggle(Toggle(mode)) == mode
  {
  }

  const ConnectedPrefix := "Connected - "
  const Connecting := "Connecting..."

  /** The header's status line (Session.tsx:65-67). */
  function StatusLine(active: bool, seconds: nat): (r: string)
    ensures !active ==> r == Connecting
    ensures active ==> |r| >= |ConnectedPrefix| + 5 && r[..|ConnectedPrefix|] == ConnectedPrefix
  {
    if active then ConnectedPrefix + FormatTime.FormatTime(seconds) else Connecting
  }

  /** The status line says "Connected" exactly when the session is active, and
      then the clock after the prefix reads back as the elapsed seconds. */
  lemma StatusLineShowsClock(active: bool, seconds: nat)
    ensures Text.StartsWith(StatusLine(active, seconds), ConnectedPrefix) <==> active
    ensures active ==>
      var clock := StatusLine(active, seconds)[|ConnectedPrefix|..];
      IsClockOf(clock, seconds)
  {
    if active {
      var line := StatusLine(active, seconds);
      assert line[..|ConnectedPrefix|] == ConnectedPrefix;
      assert line[|ConnectedPrefix|..] == FormatTime.FormatTime(seconds);
      FormatTime.FormatTimeRoundTrip(seconds);
    } else {
      assert Connecting[7] != ConnectedPrefix[7];
    }
  }

  /** `clock` is an "m..m:ss" rendering whose fields read back as `seconds`. */
  predicate IsClockOf(clock: string, seconds: nat) {
    && |clock| >= 5 && clock[|clock| - 3] == ':'
    && Text.IsDigits(clock[..|clock| - 3]) && Text.IsDigits(clock[|clock| - 2..])
    && Text.ParseDigits(clock[..|clock| - 3]) * 60 + Text.ParseDigits(clock[|clock| - 2..]) == seconds
  }

  /** The user's own messages sit on the right, the assistant's on the left. */
  function SideOf(sender: Sender): (r: Side)
    ensures r == Right <==> sender == UserSender
  {
    if sender == UserSender then Right else Left
  }

  /** The message pane (Session.tsx:76-99). */
  function RenderPane(ms: seq<Message>): (r: Pane)
    ensures r.Placeholder? <==> ms == []
    ensures r.Bubbles? ==> |r.items| == |ms|
    ensures r.Bubbles? ==> forall i :: 0 <= i < |ms| ==>
      r.items[i].text == ms[i].text && (r.items[i].side == Right <==> ms[i].sender == UserSender)
  {
    if ms == [] then Placeholder else Bubbles(seq(|ms|, i requires 0 <= i < |ms| => Bubble(ms[i].text, SideOf(ms[i].sender))))
  }

  /** The controls for an input mode (Session.tsx:117-158). */
  function Controls(mode: InputMode): (r: seq<Control>)
    ensures ToggleMode in r && EndCall in r
    ensures Mic in r <==> mode.Audio?
    ensures (TextInput in r <==> mode.Text?) && (Send in r <==> mode.Text?)
  {
    if mode.Audio? then [ToggleMode, Mic, EndCall] else [ToggleMode, TextInput, Send, EndCall]
  }

  class Screen {
    /** textMessage: the content of the text box. */
    var textMessage: string
    /** currentInputMode: the mode the screen shows. */
    var currentInputMode: InputMode
    /** The hook state the screen is given as props and whose actions it calls. */
    const session: UseSession.Session

    ghost predicate Valid()
      reads this, session, session.responseElement
    {
      session.Valid()
    }

    /** A freshly mounted screen has an empty text box and shows the audio controls. */
    constructor (session: UseSession.Session)
      ensures this.session == session
      ensures textMessage == "" && currentInputMode == Audio
    {
      this.session := session;
      textMessage, currentInputMode := "", Audio;
    }

    /** The text box's onChange. */
    method SetText(t: string)
      modifies this
      ensures textMessage == t && currentInputMode == old(currentInputMode)
    {
      textMessage := t;
    }

    /** handleSendText (Enter or the send button): a blank text box does nothing;
        otherwise the trimmed text is sent through the hook and the box is cleared. */
    method HandleSendText()
      requires Valid()
      modifies this, session, session.client
      ensures Valid()
      ensures !UseSession.NonBlank(old(textMessage)) ==>
        unchanged(this) && unchanged(session) && (session.client != null ==> unchanged(session.client))
      ensures UseSession.NonBlank(old(textMessage)) ==>
        var sent := Text.Strip(Text.JavaScript, old(textMessage));
        && textMessage == "" && currentInputMode == old(currentInputMode)
        && session.client == old(session.client)
        && (old(session.client) == null ==> unchanged(session))
        && (old(session.client) != null ==>
              && session.client.sentTexts == old(session.client.sentTexts) + [sent]
              && session.Transcript() == old(session.Transcript()) + [Message(sent, UserSender)]
              && session.CurrentStatus() == old(session.CurrentStatus())
              && session.responseText == old(session.responseText)
              && session.responseElement == old(session.responseElement)
              && session.wired == old(session.wired)
              && session.client.recording == old(session.client.recording)
              && session.client.interrupts == old(session.client.interrupts)
              && session.client.userId == old(session.client.userId)
              && session.client.connected == old(session.client.connected)
              && session.client.closed == old(session.client.closed)
              && session.client.inputMode == old(session.client.inputMode))
    {
      if UseSession.NonBlank(textMessage) {
        session.SendTextMessage(Text.Strip(Text.JavaScript, textMessage));
        textMessage := "";
      }
    }

    /** toggleInputMode: the screen shows the other mode and tells the hook,
        so afterwards the hook's mode and the screen's agree. */
    method ToggleInputMode()
      requires Valid()
      modifies this, session, session.client
      ensures Valid()
      ensures currentInputMode == Toggle(old(currentInputMode)) && session.inputMode == currentInputMode
      ensures textMessage == old(textMessage)
      ensures session.messages == old(session.messages) && session.client == old(session.client)
      ensures session.isRecording == old(session.isRecording) && session.sessionActive == old(session.sessionActive)
      ensures session.sessionSeconds == old(session.sessionSeconds) && session.isAudioPlaying == old(session.isAudioPlaying)
      ensures session.responseText == old(session.responseText) && session.responseElement == old(session.responseElement)
      ensures session.wired == old(session.wired)
      ensures session.client != null ==>
        && (old(session.inputMode) != currentInputMode ==> session.client.inputMode == currentInputMode)
        && (old(session.inputMode) == currentInputMode ==> session.client.inputMode == old(session.client.inputMode))
        && session.client.userId == old(session.client.userId) && session.client.connected == old(session.client.connected)
        && session.client.recording == old(session.client.recording) && session.client.closed == old(session.client.closed)
        && session.client.sentTexts == old(session.client.sentTexts) && session.client.interrupts == old(session.client.interrupts)
    {
      var newMode := Toggle(currentInputMode);
      currentInputMode := newMode;
      session.SetInputMode(newMode);
    }

    /** The microphone button: it stops a recording in progress and otherwise starts one. */
    method PressMic()
      requires Valid()
      modifies session, session.client
      ensures Valid()
      ensures session.client == old(session.client) && session.wired == old(session.wired)
      ensures old(session.isRecording) ==>
        && !session.isRecording && session.Transcript() == Seqs.Filter(UseSession.NotListening, old(session.Transcript()))
        && session.client != null && !session.client.recording
      ensures !old(session.isRecording) && !session.isRecording ==> unchanged(session)
      ensures !old(session.isRecording) && session.isRecording ==>
        && session.client != null && session.client.recording
        && session.Transcript() == old(session.Transcript()) + [Message(UseSession.ListeningText, UserSender)]
      ensures !old(session.isRecording) && session.client != null ==>
        session.client.recording == (old(session.client.recording) || session.isRecording)
      ensures session.sessionActive == old(session.sessionActive) && session.sessionSeconds == old(session.sessionSeconds)
      ensures session.isAudioPlaying == old(session.isAudioPlaying) && session.inputMode == old(session.inputMode)
      ensures session.responseText == old(session.responseText) && session.responseElement == old(session.responseElement)
      ensures session.client != null ==>
        && session.client.userId == old(session.client.userId) && session.client.connected == old(session.client.connected)
        && session.client.closed == old(session.client.closed) && session.client.inputMode == old(session.client.inputMode)
        && session.client.sentTexts == old(session.client.sentTexts) && session.client.interrupts == old(session.client.interrupts)
    {
      if session.isRecording {
        session.StopRecording();
      } else {
        ghost var started := session.StartRecording();
      }
    }

    /** What the header shows for the hook's current state. */
    function Status(): string
      reads session
    {
      StatusLine(session.sessionActive, session.sessionSeconds)
    }
  }
}
