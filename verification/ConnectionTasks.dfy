/** The two tasks of a connection as the client runs them, on the deque and the counter they share. Run without
  * interruption, each operation does what its steps of the protocol do. */
module ConnectionTasks {
  import opened Prelude
  import opened Frames
  import C = Connection

  /** The writer's steps from the push on: the frame is sent and counted, or the write fails. */
  function Writes(max: nat, s: C.State, sent: bool): C.State {
    var pushed := C.Apply(max, s, C.Step.Push);
    if sent then C.Apply(max, C.Apply(max, pushed, C.Send), C.CountWrite) else C.Apply(max, pushed, C.Fail)
  }

  /** The reader's steps for one frame. */
  function Reads(max: nat, s: C.State, frame: Frame): C.State {
    var counted := C.Apply(max, C.Apply(max, s, C.Stray(frame)), C.CountRead);
    HandsOn(max, counted)
  }

  /** The end of them: the command is put back and counted again, or caller and router get their messages. */
  function HandsOn(max: nat, s: C.State): C.State {
    C.Apply(max, C.Apply(max, C.Apply(max, s, C.Respond), C.CountRequeue), C.Finish)
  }

  /** What the router is told through the channel of a command. */
  datatype Message = Continue | TransactionError(error: Frame) | TransactionResult(result: Frame)

  /** What one frame does to the deque and the counter, the command it finishes, and what caller and router are told. */
  datatype Processed = Processed(
    buffer: seq<C.Command>,
    inFlight: nat,
    finished: Option<C.Command>,
    caller: Option<Frame>,
    router: Option<Message>)

  /** The caller of a command in a transaction is told nothing, and the router is told how the command went. */
  function ToCaller(c: C.Command, frame: Frame): Option<Frame> {
    if c.response.Routed? then None else Some(frame)
  }

  function ToRouter(c: C.Command, frame: Frame): Message {
    if !c.response.Routed? then Continue
    else if IsError(frame) then TransactionError(frame)
    else if c.response.ends then TransactionResult(frame)
    else Continue
  }

  function Process(buffer: seq<C.Command>, inFlight: nat, frame: Frame): Processed {
    ProcessAs(buffer, inFlight, frame, buffer != [] && C.ShouldDrop(buffer[0], frame))
  }

  /** `drop` is whether the frame is taken for an unsubscribe notice. */
  function ProcessAs(buffer: seq<C.Command>, inFlight: nat, frame: Frame, drop: bool): Processed {
    if buffer == [] || drop then Processed(buffer, inFlight, None, None, None)
    else
      var c := buffer[0];
      match C.AfterFrame(c, frame)
      case None => Processed(buffer[1..], WrapDecr(inFlight), Some(c), ToCaller(c, frame), Some(ToRouter(c, frame)))
      case Some(again) => Processed([again] + buffer[1..], WrapIncr(WrapDecr(inFlight)), None, None, None)
  }

  /** The state with the front command taken and counted down. */
  function Taken(s: C.State, frame: Frame): C.State
    requires s.buffer != []
  {
    s.(buffer := s.buffer[1..], inFlight := WrapDecr(s.inFlight), reader := C.Counted(s.buffer[0], frame))
  }

  lemma TakenFrame(max: nat, s: C.State, frame: Frame)
    requires s.reader.Ready? && s.buffer != [] && !C.ShouldDrop(s.buffer[0], frame)
    ensures C.Apply(max, C.Apply(max, s, C.Stray(frame)), C.CountRead) == Taken(s, frame)
  {
  }

  lemma RespondedFrame(max: nat, s: C.State)
    requires s.reader.Counted?
    ensures HandsOn(max, s) ==
            match C.AfterFrame(s.reader.c, s.reader.frame)
            case None =>
              C.Release(C.Tell(s, s.reader.c, s.reader.frame), s.reader.c).(reader := C.Ready)
            case Some(c) => s.(buffer := [c] + s.buffer, inFlight := WrapIncr(s.inFlight), reader := C.Ready)
  {
  }

  lemma DroppedFrame(max: nat, s: C.State, frame: Frame)
    requires s.reader.Ready? && (s.buffer == [] || C.ShouldDrop(s.buffer[0], frame))
    ensures Reads(max, s, frame) == s
  {
  }

  /** What is handed on for a finished command. Outside a transaction the caller gets the frame and the router goes on. Inside,
    * the caller gets nothing, and the router gets an error or a result with the frame, or goes on. */
  ghost predicate HandedOn(c: C.Command, frame: Frame, caller: Option<Frame>, router: Option<Message>) {
    match c.response
    case Routed(ends) =>
      && caller == None && router.Some?
      && (router.value == TransactionError(frame) <==> IsError(frame))
      && (router.value == TransactionResult(frame) <==> !IsError(frame) && ends)
      && (router.value == Continue <==> !IsError(frame) && !ends)
    case _ => caller == Some(frame) && router == Some(Continue)
  }

  /** What a processed frame adds to the answers of the protocol. */
  function AnswersOf(finished: Option<C.Command>, frame: Frame): seq<C.Answer> {
    if finished.Some? then [C.Answer(finished.value, frame)] else []
  }

  function IdOf(c: Option<C.Command>): set<nat> {
    if c.Some? then {c.value.id} else {}
  }

  /** Run without interruption, the reader's steps process the frame, for every state and frame. A command is finished when
    * its caller, or for a transaction the router, has its message. */
  lemma ReadsProcess(max: nat, s: C.State, frame: Frame)
    requires s.reader.Ready?
    ensures var s', p := Reads(max, s, frame), Process(s.buffer, s.inFlight, frame);
            && s'.buffer == p.buffer && s'.inFlight == p.inFlight && s'.reader.Ready?
            && s'.answered == s.answered + IdOf(p.finished) && s'.released == s.released + IdOf(p.finished)
            && s'.answers == s.answers + AnswersOf(p.finished, frame)
            && if p.finished.Some? then HandedOn(p.finished.value, frame, p.caller, p.router)
               else p.caller == None && p.router == None
  {
    if s.buffer == [] || C.ShouldDrop(s.buffer[0], frame) {
      DroppedFrame(max, s, frame);
    } else {
      TakenFrame(max, s, frame);
      RespondedFrame(max, Taken(s, frame));
    }
  }

  class Shared {
    var buffer: seq<C.Command>
    var inFlight: nat

    constructor ()
      ensures buffer == [] && inFlight == 0
    {
      buffer, inFlight := [], 0;
    }

    /** The deque and the counter are those of `s`. */
    ghost predicate Holds(s: C.State)
      reads this
    {
      buffer == s.buffer && inFlight == s.inFlight
    }

    /** `push_command` */
    method PushCommand(c: C.Command)
      modifies `buffer
      ensures buffer == C.Enqueue(old(buffer), c)
    {
      if !C.HasNoResponses(c) {
        buffer := buffer + [c];
      }
    }

    /** `pop_recent_command` */
    method PopRecentCommand() returns (c: Option<C.Command>)
      modifies `buffer
      ensures (c, buffer) == C.PopRecent(old(buffer))
    {
      if buffer == [] {
        return None;
      }
      c := Some(buffer[|buffer| - 1]);
      buffer := buffer[..|buffer| - 1];
    }

    /** The end of `utils::write_command`: push, write and count, or pop again. `sent` is whether the socket took the frame. */
    method WriteCommand(c: C.Command, channel: bool, sent: bool, ghost max: nat, ghost s: C.State)
      returns (popped: Option<C.Command>)
      requires Holds(s) && s.writer == C.Writing(c, channel)
      modifies this
      ensures Holds(Writes(max, s, sent))
      ensures !sent ==> Writes(max, s, sent).writer == C.Broken(popped)
    {
      PushCommand(c);
      popped := None;
      if sent {
        inFlight := WrapIncr(inFlight);
      } else {
        popped := PopRecentCommand();
      }
    }

    /** `process_response_frame`. */
    method ProcessResponseFrame(frame: Frame)
      returns (finished: Option<C.Command>, caller: Option<Frame>, router: Option<Message>)
      modifies this
      ensures Processed(buffer, inFlight, finished, caller, router) == Process(old(buffer), old(inFlight), frame)
      ensures finished.Some? ==> old(buffer) != [] && finished.value == old(buffer)[0]
      ensures if finished.Some? then HandedOn(finished.value, frame, caller, router) else caller == None && router == None
    {
      var drop := buffer != [] && C.ShouldDrop(buffer[0], frame);
      finished, caller, router := ProcessFront(frame, drop);
    }

    method ProcessFront(frame: Frame, drop: bool)
      returns (finished: Option<C.Command>, caller: Option<Frame>, router: Option<Message>)
      modifies this
      ensures Processed(buffer, inFlight, finished, caller, router) == ProcessAs(old(buffer), old(inFlight), frame, drop)
    {
      finished, caller, router := None, None, None;
      if buffer == [] {
        return;
      }
      var c := buffer[0];
      buffer := buffer[1..];
      if drop {
        buffer := [c] + buffer;
        return;
      }
      inFlight := WrapDecr(inFlight);
      if c.response.Routed? {
        finished := Some(c);
        if IsError(frame) {
          router := Some(TransactionError(frame));
        } else if c.response.ends {
          router := Some(TransactionResult(frame));
        } else {
          router := Some(Continue);
        }
        return;
      }
      match C.AfterFrame(c, frame) {
        case None => finished, caller, router := Some(c), Some(frame), Some(Continue);
        case Some(again) =>
          buffer := [again] + buffer;
          inFlight := WrapIncr(inFlight);
      }
    }
  }
}
