/** The per-client bookkeeping of Python_WebSocket/websocket_server.py
    (LiveAPIWebSocketServer): the four per-client tables, the user_id
    handshake, the recording of text turns, the resumption handle, the
    clean-up on disconnect, and the pure preparation of a transcript for
    summarising (the name heuristic and the flattened "ROLE: text" lines).
    The live model session, the audio queue and every HTTP call are outside
    the model; where the server would start one of them, a method returns
    what it would be started with. */
module WebSocketServer {
  import opened Wrappers
  import opened Text
  import Seqs

  /** `id(websocket)`, the key of every per-client table. */
  type ClientId = nat
  /** The connection object stored in active_clients. */
  type Socket = nat

  /** A transcript entry: a dictionary whose "role" and "text" keys may be
      absent (its timestamp is left out). */
  datatype Turn = Turn(role: Option<string>, text: Option<string>)

  /** `turn.get("role", "user")` */
  function RoleOf(t: Turn): string {
    t.role.GetOr("user")
  }

  /** `turn.get("text", "")` */
  function TextOf(t: Turn): string {
    t.text.GetOr("")
  }

  /** A message from the browser, after JSON decoding. */
  datatype ClientMessage =
    | UserIdMessage(data: Option<string>)
    | AudioMessage
    | EndMessage
    | TextMessage(data: Option<string>)
    | OtherMessage

  /** What waiting for the first message produced. `Unreadable` covers text
      that is not JSON, and also JSON that is not an object (`5`, `[]`, `"x"`),
      whose "type" lookup raises and ends the handler through its generic
      exception path: in both cases no close code is sent and the clean-up runs. */
  datatype FirstReceipt = Received(msg: ClientMessage) | TimedOut | Unreadable

  /** How the handshake ends: the session starts for the given uid, the server
      closes the socket with a code and a reason, or it gives up on a socket
      that is already closed or sent malformed JSON. */
  datatype HandshakeOutcome = Proceed(uid: Option<string>) | Closed(code: int, reason: string) | Abandoned

  /** What the message loop does with a message besides updating the tables. */
  datatype Action = QueueAudio | Summarize(uid: string) | ForwardText(text: string) | NoAction

  /** A summary the clean-up starts: for this uid, over this transcript, with the
      client's session handle as it stood before the tables were cleared
      (summarize_and_store reads it first). */
  datatype SummaryJob = SummaryJob(uid: string, transcript: seq<Turn>, handle: Option<string>)

  /** The input of the summarising request, once the transcript is non-empty. */
  datatype SummaryInput = SummaryInput(userName: Option<string>, flatTranscript: string, sessionId: string)

  /** A value Python treats as true: present and non-empty. */
  predicate Truthy(v: Option<string>) {
    v.Some? && v.value != ""
  }

  const PolicyViolation := 1008

  // ------------------------------------------------------------ name heuristic

  const NamePhrase := "my name is"

  /** A user turn whose lowercased text contains the phrase. */
  predicate MentionsName(t: Turn) {
    t.role == Some("user") && Contains(Lower(TextOf(t)), NamePhrase)
  }

  /** The name read from a text: what follows the last occurrence of the phrase, stripped. */
  function NameIn(text: string): string {
    Strip(Python, AfterLast(Lower(text), NamePhrase))
  }

  /** The name a turn gives. */
  function NameOfTurn(t: Turn): string {
    NameIn(TextOf(t))
  }

  /** The name the heuristic finds in a transcript, None when no user turn mentions one. */
  function FirstNameMention(ts: seq<Turn>): (r: Option<string>)
    ensures r.None? ==> forall t :: t in ts ==> !MentionsName(t)
    ensures r.Some? ==> exists t :: t in ts && MentionsName(t) && r.value == NameIn(TextOf(t))
  {
    Seqs.FirstMap(MentionsName, NameOfTurn, ts)
  }

  /** The heuristic stops at the first user turn that mentions a name and reads the name from it. */
  lemma FirstNameMentionIsFirst(ts: seq<Turn>)
    ensures FirstNameMention(ts).None? <==> forall i :: 0 <= i < |ts| ==> !MentionsName(ts[i])
    ensures FirstNameMention(ts).Some? ==>
      exists i :: 0 <= i < |ts| && MentionsName(ts[i]) && (forall j :: 0 <= j < i ==> !MentionsName(ts[j]))
                  && FirstNameMention(ts).value == NameIn(TextOf(ts[i]))
  {
    Seqs.FirstMapIsFirst(MentionsName, NameOfTurn, ts);
  }

  /** The name scan of summarize_and_store (websocket_server.py:417-425). */
  method ExtractUserName(transcript: seq<Turn>) returns (name: Option<string>)
    ensures name == FirstNameMention(transcript)
  {
    var i := 0;
    name := None;
    while i < |transcript|
      invariant 0 <= i <= |transcript|
      invariant FirstNameMention(transcript[i..]) == FirstNameMention(transcript)
    {
      var message := transcript[i];
      if message.role == Some("user") {
        var text := Lower(TextOf(message));
        if Contains(text, NamePhrase) {
          name := Some(Strip(Python, AfterLast(text, NamePhrase)));
          assert transcript[i..][0] == message;
          return;
        }
      }
      assert transcript[i..][1..] == transcript[i + 1..];
      i := i + 1;
    }
    assert transcript[i..] == [];
  }

  // ------------------------------------------------------------ flattening

  /** A turn with text left after stripping gets a line. */
  predicate HasText(t: Turn) {
    Strip(Python, TextOf(t)) != []
  }

  /** "ROLE: text" for one turn. */
  function FlatLine(t: Turn): string {
    Upper(RoleOf(t)) + ": " + Strip(Python, TextOf(t))
  }

  /** The lines of the flattened transcript, in transcript order. */
  function FlatLines(ts: seq<Turn>): (r: seq<string>)
    ensures |r| <= |ts|
    ensures ts == [] ==> r == []
  {
    Seqs.MapFilter(HasText, FlatLine, ts)
  }

  /** One line per turn with text, in order, made from that turn. */
  lemma FlatLinesAreKeptTurns(ts: seq<Turn>)
    ensures var kept := Seqs.Filter(HasText, ts);
            |FlatLines(ts)| == |kept| && forall k :: 0 <= k < |kept| ==> FlatLines(ts)[k] == FlatLine(kept[k])
  {
    Seqs.MapFilterPointwise(HasText, FlatLine, ts);
  }

  /** The flattening loop of summarize_and_store (websocket_server.py:443-449). */
  method FlattenTranscript(transcript: seq<Turn>) returns (flat: string)
    ensures flat == Seqs.Join(FlatLines(transcript), "\n")
  {
    var flatLines: seq<string> := [];
    var i := 0;
    while i < |transcript|
      invariant 0 <= i <= |transcript|
      invariant flatLines == FlatLines(transcript[..i])
    {
      var turn := transcript[i];
      var role := RoleOf(turn);
      var text := Strip(Python, TextOf(turn));
      if text != [] {
        flatLines := flatLines + [Upper(role) + ": " + text];
      }
      assert transcript[..i + 1][..i] == transcript[..i];
      i := i + 1;
    }
    assert transcript[..i] == transcript;
    flat := Seqs.Join(flatLines, "\n");
  }

  /** The inputs summarize_and_store computes for a transcript: nothing for an
      empty one, otherwise the name to save (only a non-empty one), the
      flattened transcript and the session handle (websocket_server.py:411-460). */
  method PrepareSummary(transcript: seq<Turn>, handle: Option<string>) returns (r: Option<SummaryInput>)
    ensures r.None? <==> transcript == []
    ensures r.Some? ==>
      && r.value.flatTranscript == Seqs.Join(FlatLines(transcript), "\n")
      && (Truthy(FirstNameMention(transcript)) ==> r.value.userName == FirstNameMention(transcript))
      && (!Truthy(FirstNameMention(transcript)) ==> r.value.userName == None)
      && r.value.sessionId == if Truthy(handle) then handle.value else ""
  {
    if transcript == [] {
      return None;
    }
    var userName := ExtractUserName(transcript);
    var flat := FlattenTranscript(transcript);
    var toSave := if Truthy(userName) then userName else None;
    var sessionId := if Truthy(handle) then handle.value else "";
    return Some(SummaryInput(toSave, flat, sessionId));
  }

  // ------------------------------------------------------------ the server

  class Server {
    var activeClients: map<ClientId, Socket>
    var sessionTranscripts: map<ClientId, seq<Turn>>
    var sessionIds: map<ClientId, string>
    var userIds: map<ClientId, Option<string>>

    constructor ()
      ensures activeClients == map[] && sessionTranscripts == map[] && sessionIds == map[] && userIds == map[]
    {
      activeClients, sessionTranscripts, sessionIds, userIds := map[], map[], map[], map[];
    }

    /** process_audio's first step: the socket is stored and the client gets an
        empty transcript (websocket_server.py:152-156). */
    method Register(id: ClientId, ws: Socket)
      modifies this
      ensures activeClients == old(activeClients)[id := ws]
      ensures sessionTranscripts == old(sessionTranscripts)[id := []]
      ensures sessionIds == old(sessionIds) && userIds == old(userIds)
    {
      activeClients := activeClients[id := ws];
      sessionTranscripts := sessionTranscripts[id := []];
    }

    /** The user_id handshake (websocket_server.py:158-177): only a first
        message of type user_id records a uid (whatever its data, possibly
        none) and lets the session start. */
    method Handshake(id: ClientId, first: FirstReceipt) returns (outcome: HandshakeOutcome)
      modifies this
      ensures first.Received? && first.msg.UserIdMessage? ==>
        outcome == Proceed(first.msg.data) && userIds == old(userIds)[id := first.msg.data]
      ensures !(first.Received? && first.msg.UserIdMessage?) ==> userIds == old(userIds) && !outcome.Proceed?
      ensures first.Received? && !first.msg.UserIdMessage? ==> outcome == Closed(PolicyViolation, "user_id message expected")
      ensures first.TimedOut? ==> outcome == Closed(PolicyViolation, "user_id timeout")
      ensures first.Unreadable? ==> outcome == Abandoned
      ensures activeClients == old(activeClients) && sessionTranscripts == old(sessionTranscripts)
      ensures sessionIds == old(sessionIds)
    {
      match first
      case Received(msg) =>
        if msg.UserIdMessage? {
          userIds := userIds[id := msg.data];
          outcome := Proceed(msg.data);
        } else {
          outcome := Closed(PolicyViolation, "user_id message expected");
        }
      case TimedOut =>
        outcome := Closed(PolicyViolation, "user_id timeout");
      case Unreadable =>
        outcome := Abandoned;
    }

    /** One message of the browser's message loop (websocket_server.py:204-255).
        A text message is recorded as a user turn only when its data is
        non-empty; an end message starts a summary for a recorded non-empty
        uid. A text message for a client without a transcript fails inside
        the handler, which logs and drops it. */
    method HandleMessage(id: ClientId, msg: ClientMessage) returns (action: Action)
      modifies this
      ensures activeClients == old(activeClients) && sessionIds == old(sessionIds) && userIds == old(userIds)
      ensures msg.TextMessage? && Truthy(msg.data) && id in old(sessionTranscripts) ==>
        && sessionTranscripts == old(sessionTranscripts)[id := old(sessionTranscripts)[id] + [Turn(Some("user"), msg.data)]]
        && action == ForwardText(msg.data.value)
      ensures !(msg.TextMessage? && Truthy(msg.data) && id in old(sessionTranscripts)) ==>
        sessionTranscripts == old(sessionTranscripts)
      ensures msg.EndMessage? ==>
        action == if id in userIds && Truthy(userIds[id]) then Summarize(userIds[id].value) else NoAction
      ensures msg.AudioMessage? ==> action == QueueAudio
      ensures msg.UserIdMessage? || msg.OtherMessage? ==> action == NoAction
    {
      match msg
      case AudioMessage =>
        action := QueueAudio;
      case EndMessage =>
        if id in userIds && Truthy(userIds[id]) {
          action := Summarize(userIds[id].value);
        } else {
          action := NoAction;
        }
      case TextMessage(data) =>
        action := NoAction;
        if Truthy(data) && id in sessionTranscripts {
          sessionTranscripts := sessionTranscripts[id := sessionTranscripts[id] + [Turn(Some("user"), data)]];
          action := ForwardText(data.value);
        }
      case UserIdMessage(_) =>
        action := NoAction;
      case OtherMessage =>
        action := NoAction;
    }

    /** A transcription from the model's side of the conversation: the
        model's output is recorded as an assistant turn and the user's
        recognised speech as a user turn, each only when its text is
        non-empty (websocket_server.py:346-396). */
    method RecordTranscription(id: ClientId, role: string, text: Option<string>)
      requires id in sessionTranscripts
      modifies this
      ensures Truthy(text) ==> sessionTranscripts == old(sessionTranscripts)[id := old(sessionTranscripts)[id] + [Turn(Some(role), text)]]
      ensures !Truthy(text) ==> sessionTranscripts == old(sessionTranscripts)
      ensures activeClients == old(activeClients) && sessionIds == old(sessionIds) && userIds == old(userIds)
    {
      if Truthy(text) {
        sessionTranscripts := sessionTranscripts[id := sessionTranscripts[id] + [Turn(Some(role), text)]];
      }
    }

    /** A session resumption update: a resumable update with a new handle
        replaces the client's handle, so only the latest one is kept
        (websocket_server.py:276-282). */
    method OnResumptionUpdate(id: ClientId, resumable: bool, newHandle: Option<string>)
      modifies this
      ensures resumable && Truthy(newHandle) ==> sessionIds == old(sessionIds)[id := newHandle.value]
      ensures !(resumable && Truthy(newHandle)) ==> sessionIds == old(sessionIds)
      ensures activeClients == old(activeClients) && sessionTranscripts == old(sessionTranscripts)
      ensures userIds == old(userIds)
    {
      if resumable && Truthy(newHandle) {
        sessionIds := sessionIds[id := newHandle.value];
      }
    }

    /** The `finally` block of handle_client (websocket_server.py:49-68): a
        summary is started only for a recorded non-empty uid with a non-empty
        transcript, and it carries the client's session handle, if any; then
        the client's entries leave all four tables and no other client's entry changes. */
    method Cleanup(id: ClientId) returns (job: Option<SummaryJob>)
      modifies this
      ensures job.Some? <==> id in old(userIds) && Truthy(old(userIds)[id])
                             && id in old(sessionTranscripts) && old(sessionTranscripts)[id] != []
      ensures job.Some? ==> job.value == SummaryJob(old(userIds)[id].value, old(sessionTranscripts)[id],
                                                    if id in old(sessionIds) then Some(old(sessionIds)[id]) else None)
      ensures activeClients == old(activeClients) - {id}
      ensures sessionTranscripts == old(sessionTranscripts) - {id}
      ensures sessionIds == old(sessionIds) - {id}
      ensures userIds == old(userIds) - {id}
    {
      job := None;
      if id in userIds && Truthy(userIds[id]) && id in sessionTranscripts && sessionTranscripts[id] != [] {
        var handle := if id in sessionIds then Some(sessionIds[id]) else None;
        job := Some(SummaryJob(userIds[id].value, sessionTranscripts[id], handle));
      }
      activeClients := activeClients - {id};
      sessionTranscripts := sessionTranscripts - {id};
      sessionIds := sessionIds - {id};
      userIds := userIds - {id};
    }

    /** The inputs of summarize_and_store for a client, read from the tables. */
    method SummaryInputs(id: ClientId) returns (r: Option<SummaryInput>)
      ensures var ts := if id in sessionTranscripts then sessionTranscripts[id] else [];
        && (r.None? <==> ts == [])
        && (r.Some? ==> r.value.flatTranscript == Seqs.Join(FlatLines(ts), "\n"))
        && (r.Some? ==> r.value.sessionId == if id in sessionIds then sessionIds[id] else "")
    {
      var transcript := if id in sessionTranscripts then sessionTranscripts[id] else [];
      var handle := if id in sessionIds then Some(sessionIds[id]) else None;
      r := PrepareSummary(transcript, handle);
    }
  }

  /** A client's whole life on the server: it registers, sends its first
      message and then some messages, and disconnects. Whatever happened, the
      client leaves no entry behind and the other clients' entries are as
      they were. */
  method ClientLifetime(server: Server, id: ClientId, ws: Socket, first: FirstReceipt, msgs: seq<ClientMessage>)
    returns (job: Option<SummaryJob>)
    modifies server
    ensures id !in server.activeClients && id !in server.sessionTranscripts
    ensures id !in server.sessionIds && id !in server.userIds
    ensures server.activeClients == old(server.activeClients) - {id}
    ensures server.sessionTranscripts == old(server.sessionTranscripts) - {id}
    ensures server.sessionIds == old(server.sessionIds) - {id}
    ensures server.userIds == old(server.userIds) - {id}
    ensures !(first.Received? && first.msg.UserIdMessage?) ==> job.None?
  {
    server.Register(id, ws);
    var outcome := server.Handshake(id, first);
    if outcome.Proceed? {
      var i := 0;
      while i < |msgs|
        invariant 0 <= i <= |msgs|
        invariant server.activeClients == old(server.activeClients)[id := ws]
        invariant server.sessionIds - {id} == old(server.sessionIds) - {id}
        invariant server.userIds == old(server.userIds)[id := first.msg.data]
        invariant id in server.sessionTranscripts
        invariant server.sessionTranscripts - {id} == old(server.sessionTranscripts) - {id}
      {
        var action := server.HandleMessage(id, msgs[i]);
        i := i + 1;
      }
    }
    job := server.Cleanup(id);
  }
}
