/** The shared front-end types of frontend/lib/types.ts: users, transcript
    messages, input modes, dashboard pages, exercises, and the audio client
    interface that the session hook drives. */
module Types {
  import opened Wrappers

  datatype User = User(uid: string, email: string, name: Option<string>, age: Option<int>, gender: Option<string>)

  datatype Sender = UserSender | AssistantSender

  /** A transcript entry as the screen shows it. */
  datatype Message = Message(text: string, sender: Sender)

  datatype InputMode = Audio | Text

  datatype DashboardPage = Home | Sessions | Resources | Community | Profile

  datatype Exercise = Exercise(id: string, exerciseName: string, procedure: string, bgSound: string,
                               videoLink: string, expectedTimeToComplete: string, image: string)

  /** The audio client seen through its interface (frontend/lib/types.ts:1-17).
      Its implementation (WebSocket framing, microphone capture, playback) is
      not part of this model: the fields record only what its callers can
      observe, and whether `Connect` or `StartRecording` succeeds is left open
      (a network handshake and a device permission decide it). */
  class AudioClient {
    var userId: string
    var connected: bool
    var recording: bool
    var closed: bool
    var inputMode: InputMode
    var sentTexts: seq<string>
    var interrupts: nat

    constructor ()
      ensures userId == "" && !connected && !recording && !closed
      ensures inputMode == Audio && sentTexts == [] && interrupts == 0
    {
      userId, connected, recording, closed := "", false, false, false;
      inputMode := Audio;
      sentTexts, interrupts := [], 0;
    }

    method SetUserId(uid: string)
      modifies this
      ensures userId == uid
      ensures connected == old(connected) && recording == old(recording) && closed == old(closed)
      ensures inputMode == old(inputMode) && sentTexts == old(sentTexts) && interrupts == old(interrupts)
    {
      userId := uid;
    }

    /** Opens the connection; `ok` is false when the handshake fails. */
    method Connect() returns (ok: bool)
      modifies this
      ensures connected == ok
      ensures userId == old(userId) && recording == old(recording) && closed == old(closed)
      ensures inputMode == old(inputMode) && sentTexts == old(sentTexts) && interrupts == old(interrupts)
    {
      ok :| true;
      connected := ok;
    }

    /** Asks for the microphone; `ok` is false when no input device is granted. */
    method StartRecording() returns (ok: bool)
      modifies this
      ensures recording == (old(recording) || ok)
      ensures userId == old(userId) && connected == old(connected) && closed == old(closed)
      ensures inputMode == old(inputMode) && sentTexts == old(sentTexts) && interrupts == old(interrupts)
    {
      ok :| true;
      recording := recording || ok;
    }

    method StopRecording()
      modifies this
      ensures !recording
      ensures userId == old(userId) && connected == old(connected) && closed == old(closed)
      ensures inputMode == old(inputMode) && sentTexts == old(sentTexts) && interrupts == old(interrupts)
    {
      recording := false;
    }

    method Close()
      modifies this
      ensures closed && !connected
      ensures userId == old(userId) && recording == old(recording)
      ensures inputMode == old(inputMode) && sentTexts == old(sentTexts) && interrupts == old(interrupts)
    {
      closed, connected := true, false;
    }

    /** Stops playback of the reply in progress. */
    method Interrupt()
      modifies this
      ensures interrupts == old(interrupts) + 1
      ensures userId == old(userId) && connected == old(connected) && recording == old(recording)
      ensures closed == old(closed) && inputMode == old(inputMode) && sentTexts == old(sentTexts)
    {
      interrupts := interrupts + 1;
    }

    method SendTextMessage(message: string)
      modifies this
      ensures sentTexts == old(sentTexts) + [message]
      ensures userId == old(userId) && connected == old(connected) && recording == old(recording)
      ensures closed == old(closed) && inputMode == old(inputMode) && interrupts == old(interrupts)
    {
      sentTexts := sentTexts + [message];
    }
  }
}
