/** One connection: the router task writes commands while the reader task matches response frames to them. Both work on
  * one shared deque of in-flight commands and one atomic counter. */
module Connection {
  import opened Prelude
  import opened Frames

  /** How a reply is handed on. `Routed` is a command inside a transaction: its reply goes to the router, which answers the
    * caller of the transaction, and `ends` is whether it is EXEC or DISCARD. */
  datatype Response = Single | Multiple(expected: nat) | Routed(ends: bool)

  /** A command as the connection sees it. `replies` are the frames the server sends for it, in order. `received` is the
    * progress of a `Multiple` responder. `pipelined` is whether the router goes on without waiting for the reply, as it
    * does for the commands of a pipeline and for replayed ones. `skips` is `skip_backpressure` as the command arrives: it is
    * set for the commands of a pipeline or a transaction, and for replayed, redirecting and all-nodes ones. */
  datatype Command = Command(
    id: nat,
    unsubscribe: bool,
    hasArgs: bool,
    response: Response,
    received: nat,
    pipelined: bool,
    skips: bool,
    replies: seq<Frame>)

  /** `*UNSUBSCRIBE` without arguments: the client does not know how many frames will come back. */
  predicate HasNoResponses(c: Command) {
    c.unsubscribe && !c.hasArgs
  }

  // "pubsub", "unsubscribe", "punsubscribe" and "sunsubscribe" in ASCII
  const PUBSUB: Bytes := [112, 117, 98, 115, 117, 98]
  const UNSUBSCRIBE: Bytes := [117, 110, 115, 117, 98, 115, 99, 114, 105, 98, 101]
  const PUNSUBSCRIBE: Bytes := [112] + UNSUBSCRIBE
  const SUNSUBSCRIBE: Bytes := [115] + UNSUBSCRIBE

  predicate NamesUnsubscribe(f: Frame) {
    AsStr(f) == Some(UNSUBSCRIBE) || AsStr(f) == Some(PUNSUBSCRIBE) || AsStr(f) == Some(SUNSUBSCRIBE)
  }

  predicate FromUnsubscribe(f: Frame) {
    && (f.Array? || f.Push?)
    && 3 <= |f.items| <= 4
    && ((AsStr(f.items[0]) == Some(PUBSUB) && NamesUnsubscribe(f.items[1])) || NamesUnsubscribe(f.items[0]))
  }

  /** A frame of any string or error kind, spelling this word. */
  ghost predicate Says(f: Frame, word: string) {
    && (f.SimpleString? || f.BlobString? || f.VerbatimString? || f.BigNumber? || f.SimpleError? || f.BlobError?)
    && Spells(f.data, word)
  }

  ghost predicate Spells(data: Bytes, word: string) {
    |data| == |word| && forall i :: 0 <= i < |data| ==> data[i] as int == word[i] as int
  }

  /** A word names one of the three kinds of unsubscribe. */
  ghost predicate SaysUnsubscribe(f: Frame) {
    Says(f, "unsubscribe") || Says(f, "punsubscribe") || Says(f, "sunsubscribe")
  }

  lemma SpellsOnlyOne(data: Bytes, word: string, bytes: Bytes)
    requires Spells(bytes, word)
    ensures Spells(data, word) <==> data == bytes
  {
  }

  lemma SpelledOut()
    ensures Spells(PUBSUB, "pubsub") && Spells(UNSUBSCRIBE, "unsubscribe")
    ensures Spells(PUNSUBSCRIBE, "punsubscribe") && Spells(SUNSUBSCRIBE, "sunsubscribe")
  {
  }

  /** The text of a frame is an ASCII word exactly if the frame spells it. */
  lemma AsStrSays(f: Frame, word: string, bytes: Bytes)
    requires Spells(bytes, word) && forall i :: 0 <= i < |bytes| ==> bytes[i] < 0x80
    ensures AsStr(f) == Some(bytes) <==> Says(f, word)
  {
    AsciiIsUtf8(bytes);
    if f.SimpleString? || f.BlobString? || f.VerbatimString? || f.BigNumber? || f.SimpleError? || f.BlobError? {
      SpellsOnlyOne(f.data, word, bytes);
    }
  }

  lemma NamesIff(f: Frame)
    ensures NamesUnsubscribe(f) <==> SaysUnsubscribe(f)
    ensures AsStr(f) == Some(PUBSUB) <==> Says(f, "pubsub")
  {
    SpelledOut();
    AsStrSays(f, "pubsub", PUBSUB);
    AsStrSays(f, "unsubscribe", UNSUBSCRIBE);
    AsStrSays(f, "punsubscribe", PUNSUBSCRIBE);
    AsStrSays(f, "sunsubscribe", SUNSUBSCRIBE);
  }

  /** A frame counts as an unsubscribe notice exactly if it is an array or push of three or four items that starts with one of
    * the three words, or with "pubsub" and then one of them. */
  lemma NoticeIff(f: Frame)
    ensures FromUnsubscribe(f) <==>
            && (f.Array? || f.Push?)
            && (|f.items| == 3 || |f.items| == 4)
            && (SaysUnsubscribe(f.items[0]) || (Says(f.items[0], "pubsub") && SaysUnsubscribe(f.items[1])))
  {
    if (f.Array? || f.Push?) && |f.items| >= 2 {
      NamesIff(f.items[0]);
      NamesIff(f.items[1]);
    }
  }

  /** `should_drop_extra_pubsub_frame` */
  predicate ShouldDrop(c: Command, f: Frame) {
    FromUnsubscribe(f) && !c.unsubscribe
  }

  // ---- The atomic sections of the source, on values ----

  /** `push_command` */
  function Enqueue(buffer: seq<Command>, c: Command): seq<Command> {
    if HasNoResponses(c) then buffer else buffer + [c]
  }

  /** `pop_recent_command` */
  function PopRecent(buffer: seq<Command>): (Option<Command>, seq<Command>) {
    if buffer == [] then (None, []) else (Some(buffer[|buffer| - 1]), buffer[..|buffer| - 1])
  }

  /** The locked section that starts `process_response_frame`. */
  function TakeFront(buffer: seq<Command>, f: Frame): (Option<Command>, seq<Command>) {
    if buffer == [] || ShouldDrop(buffer[0], f) then (None, buffer) else (Some(buffer[0]), buffer[1..])
  }

  /** `respond_multiple`: the command to put back at the front, if more frames are expected. */
  function AfterFrame(c: Command, f: Frame): Option<Command> {
    match c.response
    case Single => None
    case Routed(_) => None
    case Multiple(expected) =>
      if IsError(f) || c.received + 1 == expected then None else Some(c.(received := c.received + 1))
  }

  // ---- The protocol ----

  /** The router task. `Checking` is before the backpressure check, `Writing` after it, `Pushed` between the deque and
    * the socket, `Written` between the socket and the counter, `Blocked` waits on the router channel. */
  datatype Writer =
    | Idle
    | Checking(c: Command, skip: bool, channel: bool)
    | Writing(c: Command, channel: bool)
    | Pushed(c: Command, channel: bool)
    | Written(c: Command, channel: bool)
    | Blocked(c: Command)
    | Broken(popped: Option<Command>)

  /** The reader task. `Took` has the front command off the deque, `Counted` after the counter. `Answering` has let the
    * router go and has yet to answer the caller, which is the order for a `Multiple` command. `Releasing` has answered the
    * caller and has yet to let the router go, which is the order for a `Single` one. `Requeued` has put the command back. */
  datatype Reader =
    | Ready
    | Took(c: Command, frame: Frame)
    | Counted(c: Command, frame: Frame)
    | Answering(c: Command, frame: Frame)
    | Releasing(c: Command)
    | Requeued

  /** A consumed frame: the command that caused it, and the command the reader took off the deque for it. */
  datatype Delivery = Delivery(cause: nat, taken: nat, frame: Frame)

  /** What is handed on for a finished command: to its caller, or for a command in a transaction to the router. */
  datatype Answer = Answer(c: Command, frame: Frame)

  /** `serving` lists the commands the server has yet to finish, with the number of frames already delivered in their
    * `received` field. `log` is what the reader consumed and `lost` counts the replies it threw away. `sent` lists the
    * commands that reached the socket, `answers` what was handed on and `answered` for which commands, `released` those whose
    * router channel was used if they have one, and `silent` counts the finished writes of commands without responses. */
  datatype State = State(
    buffer: seq<Command>,
    inFlight: nat,
    writer: Writer,
    reader: Reader,
    serving: seq<Command>,
    log: seq<Delivery>,
    lost: nat,
    sent: seq<Command>,
    answers: seq<Answer>,
    answered: set<nat>,
    released: set<nat>,
    silent: nat,
    next: nat)

  const START := State([], 0, Idle, Ready, [], [], 0, [], [], {}, {}, 0, 0)

  datatype Step =
    | Submit(c: Command)
    | Check
    | GiveUp
    | Push
    | Send
    | Fail
    | CountWrite
    | Wake
    | Receive
    | Stray(frame: Frame)
    | CountRead
    | Respond
    | Finish
    | CountRequeue

  predicate OfWriter(step: Step) {
    step.Submit? || step.Check? || step.GiveUp? || step.Push? || step.Send? || step.Fail? || step.CountWrite? || step.Wake?
  }

  predicate Enabled(s: State, step: Step) {
    match step
    case Submit(c) => s.writer.Idle? && c.id == s.next && c.received == 0
    case Check => s.writer.Checking?
    case GiveUp => s.writer.Checking?
    case Push => s.writer.Writing?
    case Send => s.writer.Pushed?
    case Fail => s.writer.Pushed?
    case CountWrite => s.writer.Written?
    case Wake => s.writer.Blocked? && s.writer.c.id in s.released
    case Receive => s.reader.Ready? && s.serving != [] && s.serving[0].received < |s.serving[0].replies|
    case Stray(_) => s.reader.Ready?
    case CountRead => s.reader.Took?
    case Respond => s.reader.Counted?
    case Finish => s.reader.Answering? || s.reader.Releasing?
    case CountRequeue => s.reader.Requeued?
  }

  /** What is left of `c` after one more frame. */
  function Left(c: Command): seq<Command> {
    if c.received + 1 < |c.replies| then [c.(received := c.received + 1)] else []
  }

  /** The server delivers the next frame. */
  function Deliver(s: State): State
    requires Enabled(s, Receive)
  {
    var c := s.serving[0];
    var frame := c.replies[c.received];
    var (taken, rest) := TakeFront(s.buffer, frame);
    var s' := s.(serving := Left(c) + s.serving[1..], buffer := rest);
    match taken
    case None => s'.(lost := s.lost + 1)
    case Some(t) => s'.(reader := Took(t, frame), log := s.log + [Delivery(c.id, t.id, frame)])
  }

  function Tell(s: State, c: Command, frame: Frame): State {
    s.(answers := s.answers + [Answer(c, frame)], answered := s.answered + {c.id})
  }

  function Release(s: State, c: Command): State {
    s.(released := s.released + {c.id})
  }

  /** The last frame of a command is handed on: the first of caller and router gets its message. */
  function HandOn(s: State): State
    requires Enabled(s, Respond)
  {
    var c, frame := s.reader.c, s.reader.frame;
    match c.response
    case Single => Tell(s, c, frame).(reader := Releasing(c))
    case Multiple(_) => Release(s, c).(reader := Answering(c, frame))
    case Routed(_) => Release(Tell(s, c, frame), c).(reader := Ready)
  }

  /** One atomic step under the Drain policy. A step whose turn has not come changes nothing, so every list of steps is an
    * interleaving of the two tasks. */
  function Apply(max: nat, s: State, step: Step): State {
    if !Enabled(s, step) then s else
    match step
    case Submit(c) => s.(writer := Checking(c, c.skips, !c.pipelined), next := s.next + 1)
    case Check =>
      var w := s.writer;
      if w.skip || s.inFlight <= max then s.(writer := Writing(w.c, w.channel))
      else if w.channel then s
      else s.(writer := Checking(w.c, true, true))
    case GiveUp => s.(writer := Idle)
    case Push =>
      var w := s.writer;
      var told := if HasNoResponses(w.c) then Release(Tell(s, w.c, Null), w.c) else s;
      told.(buffer := Enqueue(s.buffer, w.c), writer := Pushed(w.c, w.channel))
    case Send =>
      var w := s.writer;
      s.(writer := Written(w.c, w.channel), sent := s.sent + [w.c],
         serving := if w.c.replies == [] then s.serving else s.serving + [w.c])
    case Fail =>
      var (popped, rest) := PopRecent(s.buffer);
      s.(buffer := rest, writer := Broken(popped))
    case CountWrite =>
      var w := s.writer;
      s.(inFlight := WrapIncr(s.inFlight), writer := if w.channel then Blocked(w.c) else Idle,
         silent := if HasNoResponses(w.c) then s.silent + 1 else s.silent)
    case Wake => s.(writer := Idle)
    case Receive => Deliver(s)
    case Stray(f) =>
      (match TakeFront(s.buffer, f)
       case (None, rest) => s.(buffer := rest)
       case (Some(c), rest) => s.(buffer := rest, reader := Took(c, f)))
    case CountRead => s.(inFlight := WrapDecr(s.inFlight), reader := Counted(s.reader.c, s.reader.frame))
    case Respond =>
      (match AfterFrame(s.reader.c, s.reader.frame)
       case None => HandOn(s)
       case Some(c) => s.(buffer := [c] + s.buffer, reader := Requeued))
    case Finish =>
      var c := s.reader.c;
      (if s.reader.Answering? then Tell(s, c, s.reader.frame) else Release(s, c)).(reader := Ready)
    case CountRequeue => s.(inFlight := WrapIncr(s.inFlight), reader := Ready)
  }

  ghost function Run(max: nat, steps: seq<Step>): State {
    if steps == [] then START else Apply(max, Run(max, steps[..|steps| - 1]), steps[|steps| - 1])
  }

  // ---- The server ----

  /** A server that answers in order: one frame per command, and for a `Multiple` command either all expected frames, or
    * some of them and then one error. */
  ghost predicate InOrder(c: Command) {
    if HasNoResponses(c) then c.replies == []
    else match c.response
      case Single => |c.replies| == 1
      case Routed(_) => |c.replies| == 1
      case Multiple(expected) =>
        && 1 <= |c.replies| <= expected
        && (forall i :: 0 <= i < |c.replies| - 1 ==> !IsError(c.replies[i]))
        && (|c.replies| < expected ==> IsError(c.replies[|c.replies| - 1]))
  }

  /** No reply to a command other than `*UNSUBSCRIBE` has the shape of an unsubscribe notice. */
  ghost predicate NoLookalike(c: Command) {
    forall i :: 0 <= i < |c.replies| ==> !ShouldDrop(c, c.replies[i])
  }

  /** What the theorems ask of the server and the socket, step by step. */
  ghost predicate Allowed(s: State, step: Step) {
    match step
    case Submit(c) => InOrder(c) && NoLookalike(c)
    case Stray(f) => FromUnsubscribe(f) && (s.buffer != [] ==> !s.buffer[0].unsubscribe)
    case Fail => s.writer.Pushed? && HasNoResponses(s.writer.c) ==> s.buffer == []
    case _ => true
  }

  ghost predicate AllowedRun(max: nat, steps: seq<Step>) {
    steps == [] ||
    (AllowedRun(max, steps[..|steps| - 1]) && Allowed(Run(max, steps[..|steps| - 1]), steps[|steps| - 1]))
  }

  // ---- Matching: every frame reaches the command that caused it ----

  ghost predicate WellServed(c: Command) {
    InOrder(c.(received := 0)) && NoLookalike(c)
  }

  /** `c` waits for at least one more frame. */
  ghost predicate Live(c: Command) {
    WellServed(c) && c.received < |c.replies|
  }

  ghost predicate AllLive(cs: seq<Command>) {
    forall i :: 0 <= i < |cs| ==> Live(cs[i])
  }

  predicate Held(r: Reader) {
    r.Took? || r.Counted?
  }

  /** The command in the reader's hands, if it has to go back on the deque. */
  ghost function HeldLeft(r: Reader): seq<Command> {
    if Held(r) then Left(r.c) else []
  }

  /** The command is on the deque but not on the socket. */
  predicate Unsent(w: Writer) {
    w.Pushed? && !HasNoResponses(w.c)
  }

  ghost function SentPart(s: State): seq<Command> {
    if Unsent(s.writer) && s.buffer != [] then s.buffer[..|s.buffer| - 1] else s.buffer
  }

  predicate Carrying(w: Writer) {
    w.Checking? || w.Writing? || w.Pushed? || w.Written? || w.Blocked?
  }

  ghost predicate Shape(s: State) {
    && AllLive(s.buffer)
    && (Held(s.reader) ==> Live(s.reader.c) && s.reader.frame == s.reader.c.replies[s.reader.c.received])
    && (Carrying(s.writer) ==> WellServed(s.writer.c) && s.writer.c.received == 0)
    && (Unsent(s.writer) ==> s.buffer != [] && s.buffer[|s.buffer| - 1] == s.writer.c)
  }

  /** The server is working on exactly the commands the client waits for, in deque order. */
  ghost predicate Matched(s: State) {
    s.serving == HeldLeft(s.reader) + SentPart(s)
  }

  /** Every frame so far was consumed by the command that caused it. */
  ghost predicate Attributed(s: State) {
    s.lost == 0 && forall i :: 0 <= i < |s.log| ==> s.log[i].cause == s.log[i].taken
  }

  ghost predicate Matching(s: State) {
    Shape(s) && Matched(s) && Attributed(s)
  }

  /** A command goes back on the deque exactly while frames are owed. */
  lemma RequeuedWhileOwed(c: Command)
    requires Live(c)
    ensures var next := AfterFrame(c, c.replies[c.received]);
            if next.Some? then Left(c) == [next.value] && Live(next.value) else Left(c) == []
  {
  }

  lemma PushKeepsShape(max: nat, s: State)
    requires Shape(s) && Enabled(s, Step.Push)
    ensures Shape(Apply(max, s, Step.Push))
  {
  }

  lemma PushKeepsMatching(max: nat, s: State)
    requires Matching(s) && Enabled(s, Step.Push)
    ensures Matching(Apply(max, s, Step.Push))
  {
    PushKeepsShape(max, s);
    PushKeepsMatched(max, s);
  }

  lemma PushKeepsMatched(max: nat, s: State)
    requires Matched(s) && Attributed(s) && Enabled(s, Step.Push)
    ensures Matched(Apply(max, s, Step.Push)) && Attributed(Apply(max, s, Step.Push))
  {
    var s' := Apply(max, s, Step.Push);
    assert (s.buffer + [s.writer.c])[..|s.buffer|] == s.buffer;
    assert SentPart(s') == SentPart(s);
  }

  lemma SendKeepsMatching(max: nat, s: State)
    requires Matching(s) && Enabled(s, Send)
    ensures Matching(Apply(max, s, Send))
  {
    if !HasNoResponses(s.writer.c) {
      assert s.buffer == SentPart(s) + [s.writer.c];
    }
  }

  lemma FailKeepsMatching(max: nat, s: State)
    requires Matching(s) && Enabled(s, Fail)
    requires HasNoResponses(s.writer.c) ==> s.buffer == []
    ensures Matching(Apply(max, s, Fail))
  {
  }

  /** A reply is consumed by the front command exactly when the frame is not taken for an unsubscribe notice. */
  lemma ReceivedReplyMatchesIff(max: nat, s: State)
    requires Enabled(s, Receive) && Matched(s) && s.buffer != [] && s.serving[0] == s.buffer[0]
    ensures var s', front := Apply(max, s, Receive), s.buffer[0];
            if ShouldDrop(front, front.replies[front.received]) then s'.lost == s.lost + 1 && !Matched(s')
            else s'.lost == s.lost && Matched(s')
  {
    var s', front := Apply(max, s, Receive), s.buffer[0];
    if ShouldDrop(front, front.replies[front.received]) {
      assert SentPart(s') == s.serving;
      if Left(front) == [] {
        assert |s'.serving| != |s.serving|;
      } else {
        assert s'.serving[0] != s.serving[0];
      }
    } else {
      assert SentPart(s') == s.serving[1..];
    }
  }

  /** With the reader ready, the server works on the front command, and its next frame is not dropped. */
  lemma FrontIsServed(s: State)
    requires Shape(s) && Matched(s) && Enabled(s, Receive)
    ensures s.serving == SentPart(s) && s.buffer != [] && s.serving[0] == s.buffer[0]
    ensures !ShouldDrop(s.buffer[0], s.buffer[0].replies[s.buffer[0].received])
  {
    assert s.serving == SentPart(s);
    assert s.serving[0] == s.buffer[0];
  }

  lemma ReceiveKeepsShape(max: nat, s: State)
    requires Shape(s) && Enabled(s, Receive)
    requires s.serving == SentPart(s) && s.buffer != [] && s.serving[0] == s.buffer[0]
    requires !ShouldDrop(s.buffer[0], s.buffer[0].replies[s.buffer[0].received])
    ensures Shape(Apply(max, s, Receive))
  {
    var s' := Apply(max, s, Receive);
    assert forall i :: 0 <= i < |s'.buffer| ==> s'.buffer[i] == s.buffer[i + 1];
  }

  lemma ReceiveKeepsAttributed(max: nat, s: State)
    requires Attributed(s) && Enabled(s, Receive) && s.buffer != [] && s.serving[0] == s.buffer[0]
    requires !ShouldDrop(s.buffer[0], s.buffer[0].replies[s.buffer[0].received])
    ensures Attributed(Apply(max, s, Receive))
  {
  }

  lemma ReceiveKeepsMatching(max: nat, s: State)
    requires Matching(s) && Enabled(s, Receive)
    ensures Matching(Apply(max, s, Receive))
  {
    FrontIsServed(s);
    ReceiveKeepsShape(max, s);
    ReceiveKeepsAttributed(max, s);
    ReceivedReplyMatchesIff(max, s);
  }

  lemma RespondKeepsShape(max: nat, s: State)
    requires Shape(s) && Enabled(s, Respond)
    ensures Shape(Apply(max, s, Respond))
  {
    RequeuedWhileOwed(s.reader.c);
  }

  lemma RespondKeepsMatched(max: nat, s: State)
    requires Matched(s) && Attributed(s) && Enabled(s, Respond)
    requires Left(s.reader.c) == match AfterFrame(s.reader.c, s.reader.frame) case None => [] case Some(c) => [c]
    requires Unsent(s.writer) ==> s.buffer != []
    ensures Matched(Apply(max, s, Respond)) && Attributed(Apply(max, s, Respond))
  {
    var s' := Apply(max, s, Respond);
    assert SentPart(s') == Left(s.reader.c) + SentPart(s);
  }

  lemma RespondKeepsMatching(max: nat, s: State)
    requires Matching(s) && Enabled(s, Respond)
    ensures Matching(Apply(max, s, Respond))
  {
    RequeuedWhileOwed(s.reader.c);
    RespondKeepsShape(max, s);
    RespondKeepsMatched(max, s);
  }

  /** The other steps move neither commands nor frames. */
  lemma UnmovedKeepsShape(max: nat, s: State, step: Step)
    requires Shape(s) && Allowed(s, step) && Enabled(s, step)
    requires step.Submit? || step.Check? || step.GiveUp? || step.CountWrite? || step.Wake?
    ensures Shape(Apply(max, s, step))
  {
  }

  lemma UnmovedKeepsMatched(max: nat, s: State, step: Step)
    requires Matched(s) && Attributed(s) && Enabled(s, step)
    requires step.Submit? || step.Check? || step.GiveUp? || step.CountWrite? || step.Wake?
    ensures Matched(Apply(max, s, step)) && Attributed(Apply(max, s, step))
  {
  }

  lemma UntakenKeepsMatching(max: nat, s: State, step: Step)
    requires Matching(s) && Allowed(s, step) && Enabled(s, step)
    requires step.Stray? || step.CountRead? || step.CountRequeue? || step.Finish?
    ensures Matching(Apply(max, s, step))
  {
    var s' := Apply(max, s, step);
    assert SentPart(s') == SentPart(s) && HeldLeft(s'.reader) == HeldLeft(s.reader);
  }

  lemma StepKeepsMatching(max: nat, s: State, step: Step)
    requires Matching(s) && Allowed(s, step) && Enabled(s, step)
    ensures Matching(Apply(max, s, step))
  {
    match step
    case Push => PushKeepsMatching(max, s);
    case Send => SendKeepsMatching(max, s);
    case Fail => FailKeepsMatching(max, s);
    case Receive => ReceiveKeepsMatching(max, s);
    case Respond => RespondKeepsMatching(max, s);
    case Submit(_) | Check | GiveUp | CountWrite | Wake =>
      UnmovedKeepsShape(max, s, step);
      UnmovedKeepsMatched(max, s, step);
    case _ => UntakenKeepsMatching(max, s, step);
  }

  lemma {:induction false} EveryRunMatches(max: nat, steps: seq<Step>)
    requires AllowedRun(max, steps)
    ensures Matching(Run(max, steps))
  {
    if steps != [] {
      EveryRunMatches(max, steps[..|steps| - 1]);
      var s := Run(max, steps[..|steps| - 1]);
      if Enabled(s, steps[|steps| - 1]) {
        StepKeepsMatching(max, s, steps[|steps| - 1]);
      }
    }
  }

  /** Over every interleaving with such a server, each frame is consumed by the command that caused it, no reply is thrown
    * away, and the next reply always finds its own command at the front of the deque. */
  lemma EveryReplyReachesItsCommand(max: nat, steps: seq<Step>)
    requires AllowedRun(max, steps)
    ensures var s := Run(max, steps);
            && s.lost == 0
            && (forall i :: 0 <= i < |s.log| ==> s.log[i].cause == s.log[i].taken)
            && (Enabled(s, Receive) ==>
                  && s.buffer != []
                  && s.buffer[0] == s.serving[0]
                  && TakeFront(s.buffer, s.serving[0].replies[s.serving[0].received]) == (Some(s.buffer[0]), s.buffer[1..]))
  {
    EveryRunMatches(max, steps);
    var s := Run(max, steps);
    if Enabled(s, Receive) {
      FrontIsServed(s);
    }
  }

  /** When the server has nothing left to send, no written command is left waiting. */
  lemma SilentServerMeansEmptyDeque(max: nat, steps: seq<Step>)
    requires AllowedRun(max, steps)
    ensures var s := Run(max, steps);
            s.serving == [] && s.reader.Ready? && !s.writer.Pushed? ==> s.buffer == []
  {
    EveryRunMatches(max, steps);
  }

  // ---- Where the matching breaks ----

  /** A failed write takes the last command off the deque, which is the command of the write only if that was put there.
    * The deque stays matched exactly unless the failed command expects no responses and others are in flight. */
  lemma FailedWriteMatchesIff(max: nat, s: State)
    requires Matching(s) && s.writer.Pushed?
    ensures Matched(Apply(max, s, Fail)) <==> !(HasNoResponses(s.writer.c) && s.buffer != [])
  {
    var s' := Apply(max, s, Fail);
    if HasNoResponses(s.writer.c) && s.buffer != [] {
      assert |s.serving| != |HeldLeft(s'.reader) + SentPart(s')|;
    } else {
      FailKeepsMatching(max, s);
    }
  }

  lemma RunOneMore(max: nat, steps: seq<Step>, step: Step)
    ensures Run(max, steps + [step]) == Apply(max, Run(max, steps), step)
    ensures AllowedRun(max, steps + [step]) <==> AllowedRun(max, steps) && Allowed(Run(max, steps), step)
  {
    assert (steps + [step])[..|steps|] == steps;
  }

  /** The first command passes the check on a fresh connection. */
  lemma FirstCheck(max: nat, c: Command) returns (steps: seq<Step>)
    requires c.id == 0 && c.received == 0
    ensures Run(max, steps) == START.(writer := Writing(c, !c.pipelined), next := 1)
    ensures InOrder(c) && NoLookalike(c) ==> AllowedRun(max, steps)
  {
    RunOneMore(max, [], Submit(c));
    steps := [] + [Submit(c)];
    assert Run(max, steps) == START.(writer := Checking(c, c.skips, !c.pipelined), next := 1);
    RunOneMore(max, steps, Check);
    steps := steps + [Check];
  }

  /** It is written, up to the socket. */
  lemma FirstWrite(max: nat, c: Command) returns (steps: seq<Step>)
    requires c.id == 0 && c.received == 0 && !HasNoResponses(c) && c.replies != []
    ensures Run(max, steps) ==
            START.(buffer := [c], writer := Written(c, !c.pipelined), serving := [c], sent := [c], next := 1)
    ensures InOrder(c) && NoLookalike(c) ==> AllowedRun(max, steps)
  {
    steps := FirstCheck(max, c);
    RunOneMore(max, steps, Step.Push);
    steps := steps + [Step.Push];
    assert Run(max, steps) == START.(buffer := [c], writer := Pushed(c, !c.pipelined), next := 1);
    RunOneMore(max, steps, Send);
    steps := steps + [Send];
  }

  function Get(id: nat): Command {
    Command(id, false, true, Single, 0, true, false, [Null])
  }

  /** UNSUBSCRIBE without arguments. */
  function UnsubscribeAll(id: nat): Command {
    Command(id, true, false, Single, 0, true, false, [])
  }

  /** Another command passes the check after a first one, for any limit on commands in flight. */
  lemma SecondCheck(max: nat, before: seq<Step>, c: Command) returns (steps: seq<Step>, channel: bool)
    requires Run(max, before).writer == Idle && c.id == Run(max, before).next && c.received == 0 && c.pipelined
    ensures Run(max, steps) == Run(max, before).(writer := Writing(c, channel), next := Run(max, before).next + 1)
    ensures AllowedRun(max, before) && InOrder(c) && NoLookalike(c) ==> AllowedRun(max, steps)
  {
    var s := Run(max, before);
    RunOneMore(max, before, Submit(c));
    steps := before + [Submit(c)];
    assert Run(max, steps) == s.(writer := Checking(c, c.skips, false), next := s.next + 1);
    steps, channel := CheckPasses(max, steps, c);
  }

  lemma CheckPasses(max: nat, before: seq<Step>, c: Command) returns (steps: seq<Step>, channel: bool)
    requires Run(max, before).writer == Checking(c, c.skips, false)
    ensures Run(max, steps) == Run(max, before).(writer := Writing(c, channel))
    ensures AllowedRun(max, before) ==> AllowedRun(max, steps)
  {
    RunOneMore(max, before, Check);
    steps := before + [Check];
    channel := !c.skips && Run(max, before).inFlight > max;
    if channel {
      RunOneMore(max, steps, Check);
      steps := steps + [Check];
    }
  }

  /** GET is written and counted. */
  lemma GetInFlight(max: nat) returns (steps: seq<Step>)
    ensures AllowedRun(max, steps)
    ensures Run(max, steps) == START.(buffer := [Get(0)], inFlight := 1, serving := [Get(0)], sent := [Get(0)], next := 1)
  {
    steps := FirstWrite(max, Get(0));
    RunOneMore(max, steps, CountWrite);
    steps := steps + [CountWrite];
  }

  /** GET is in flight, and UNSUBSCRIBE without arguments is about to be written. */
  lemma UnsubscribeAfterGet(max: nat) returns (steps: seq<Step>, channel: bool)
    ensures AllowedRun(max, steps)
    ensures var s := Run(max, steps);
            s.writer == Pushed(UnsubscribeAll(1), channel) && s.buffer == [Get(0)] && s.serving == [Get(0)] && s.reader == Ready
  {
    var before := GetInFlight(max);
    steps, channel := SecondCheck(max, before, UnsubscribeAll(1));
    RunOneMore(max, steps, Step.Push);
    steps := steps + [Step.Push];
  }

  /** The failing case: the failed write of UNSUBSCRIBE takes GET off the deque, whose reply is on its way. */
  lemma FailedWriteCanPopAnother(max: nat) returns (steps: seq<Step>)
    ensures steps != [] && AllowedRun(max, steps[..|steps| - 1])
    ensures var s := Run(max, steps);
            s.writer == Broken(Some(Get(0))) && s.serving == [Get(0)] && s.buffer == [] && !Matched(s)
  {
    var before, channel := UnsubscribeAfterGet(max);
    RunOneMore(max, before, Fail);
    steps := before + [Fail];
    assert steps[..|steps| - 1] == before;
  }

  /** The front command is kept, and the reply counted as lost. */
  lemma LostOnArrival(s: State)
    requires Enabled(s, Receive) && |s.serving| == 1 && Left(s.serving[0]) == []
    requires TakeFront(s.buffer, s.serving[0].replies[s.serving[0].received]) == (None, s.buffer)
    ensures Deliver(s) == s.(serving := [], lost := s.lost + 1)
  {
    assert Left(s.serving[0]) + s.serving[1..] == [];
  }

  lemma WrittenThenLost(max: nat, c: Command) returns (steps: seq<Step>)
    requires c.id == 0 && c.received == 0 && !HasNoResponses(c)
    requires |c.replies| == 1 && TakeFront([c], c.replies[0]) == (None, [c])
    ensures Run(max, steps) ==
            START.(buffer := [c], writer := Written(c, !c.pipelined), sent := [c], next := 1, lost := 1)
  {
    var before := FirstWrite(max, c);
    LostOnArrival(Run(max, before));
    RunOneMore(max, before, Receive);
    steps := before + [Receive];
  }

  /** The failing case, for every command whose reply has that shape: the reply is thrown away, and the command waits on. */
  lemma LookalikeReplyIsLost(max: nat, c: Command) returns (steps: seq<Step>)
    requires c.id == 0 && c.received == 0 && c.response == Single && !HasNoResponses(c)
    requires |c.replies| == 1 && ShouldDrop(c, c.replies[0])
    ensures var s := Run(max, steps);
            s.lost == 1 && s.log == [] && s.serving == [] && s.buffer == [c]
  {
    steps := WrittenThenLost(max, c);
  }

  lemma NamedByText(word: Bytes)
    requires word == UNSUBSCRIBE
    ensures NamesUnsubscribe(BlobString(word))
  {
    assert forall i :: 0 <= i < |word| ==> word[i] < 0x80;
    AsciiIsUtf8(word);
  }

  /** Ordinary commands have such replies: LRANGE over a list of three elements, the first one "unsubscribe". */
  lemma OrdinaryReplyCanLookAlike(word: Bytes)
    requires word == UNSUBSCRIBE
    ensures FromUnsubscribe(Array([BlobString(word), Null, Null]))
  {
    NamedByText(word);
  }

  lemma FrontGoneMismatches(s: State, s': State, f: Frame)
    requires Matched(s) && s.reader.Ready? && !Unsent(s.writer) && s.buffer != []
    requires s' == s.(buffer := s.buffer[1..], reader := Took(s.buffer[0], f))
    ensures !Matched(s')
  {
    var c, left := s.buffer[0], HeldLeft(s'.reader) + SentPart(s');
    assert s.serving == s.buffer && SentPart(s') == s.buffer[1..];
    if Left(c) == [] {
      assert |left| == |s.buffer| - 1;
    } else {
      assert left[0].received == c.received + 1;
    }
  }

  /** The state after the reader looked at a frame, by whether the front command took it. */
  function Looked(s: State, f: Frame, taken: bool): State
    requires taken ==> s.buffer != []
  {
    if taken then s.(buffer := s.buffer[1..], reader := Took(s.buffer[0], f)) else s
  }

  lemma StrayIsLooked(max: nat, s: State, f: Frame, taken: bool)
    requires s.reader.Ready? && (taken ==> s.buffer != [])
    requires TakeFront(s.buffer, f) == if taken then (Some(s.buffer[0]), s.buffer[1..]) else (None, s.buffer)
    ensures Apply(max, s, Stray(f)) == Looked(s, f, taken)
  {
  }

  lemma NoticeIsTakenIff(buffer: seq<Command>, f: Frame)
    requires FromUnsubscribe(f)
    ensures var taken := buffer != [] && buffer[0].unsubscribe;
            TakeFront(buffer, f) == if taken then (Some(buffer[0]), buffer[1..]) else (None, buffer)
  {
  }

  /** A notice that belongs to no command in flight leaves the deque matched exactly unless an unsubscribe command is at its
    * front: that command takes the notice for its own reply. */
  lemma StrayNoticeMatchesIff(max: nat, s: State, f: Frame)
    requires Matched(s) && s.reader.Ready? && FromUnsubscribe(f)
    ensures var s', taken := Apply(max, s, Stray(f)), s.buffer != [] && s.buffer[0].unsubscribe;
            && (Matched(s') && s'.reader.Ready? <==> !taken)
            && (!Unsent(s.writer) ==> (Matched(s') <==> !taken))
  {
    var taken := s.buffer != [] && s.buffer[0].unsubscribe;
    NoticeIsTakenIff(s.buffer, f);
    StrayIsLooked(max, s, f, taken);
    LookedMatchesIff(s, f, taken);
  }

  lemma LookedMatchesIff(s: State, f: Frame, taken: bool)
    requires Matched(s) && s.reader.Ready? && (taken ==> s.buffer != [])
    ensures Matched(Looked(s, f, taken)) && Looked(s, f, taken).reader.Ready? <==> !taken
    ensures !Unsent(s.writer) ==> (Matched(Looked(s, f, taken)) <==> !taken)
  {
    if taken && !Unsent(s.writer) {
      FrontGoneMismatches(s, Looked(s, f, taken), f);
    }
  }

  /** UNSUBSCRIBE from one channel, with its notice. */
  function Unsubscribe(id: nat, notice: Frame): Command {
    Command(id, true, true, Multiple(1), 0, true, false, [notice])
  }

  /** UNSUBSCRIBE without arguments is written and counted. */
  lemma UnsubscribedAll(max: nat) returns (steps: seq<Step>)
    ensures AllowedRun(max, steps)
    ensures Run(max, steps) ==
            START.(inFlight := 1, sent := [UnsubscribeAll(0)], answers := [Answer(UnsubscribeAll(0), Null)], answered := {0},
                   released := {0}, silent := 1, next := 1)
  {
    var c := UnsubscribeAll(0);
    steps := FirstCheck(max, c);
    RunOneMore(max, steps, Step.Push);
    steps := steps + [Step.Push];
    var s := START.(answers := [Answer(c, Null)], answered := {0}, released := {0}, next := 1);
    assert Run(max, steps) == s.(writer := Pushed(c, false));
    RunOneMore(max, steps, Send);
    steps := steps + [Send];
    assert Run(max, steps) == s.(writer := Written(c, false), sent := [c]);
    RunOneMore(max, steps, CountWrite);
    steps := steps + [CountWrite];
  }

  /** After it, UNSUBSCRIBE from one channel is on the socket. */
  lemma UnsubscribedTwice(max: nat, notice: Frame) returns (steps: seq<Step>)
    ensures AllowedRun(max, steps)
    ensures var s, c := Run(max, steps), Unsubscribe(1, notice);
            && s.buffer == [c] && s.serving == [c] && s.reader == Ready && s.lost == 0 && s.log == []
            && s.answers == [Answer(UnsubscribeAll(0), Null)]
  {
    var c := Unsubscribe(1, notice);
    var before := UnsubscribedAll(max);
    var channel;
    steps, channel := SecondCheck(max, before, c);
    RunOneMore(max, steps, Step.Push);
    steps := steps + [Step.Push];
    assert Run(max, steps).writer == Pushed(c, channel) && Run(max, steps).buffer == [c];
    RunOneMore(max, steps, Send);
    steps := steps + [Send];
  }

  /** The failing case: the second command is answered with a notice that the first one caused, and its own is lost. */
  lemma StrayNoticeAnswersAnother(max: nat, stray: Frame, notice: Frame) returns (steps: seq<Step>)
    requires FromUnsubscribe(stray)
    ensures var s := Run(max, steps);
            && s.answers == [Answer(UnsubscribeAll(0), Null), Answer(Unsubscribe(1, notice), stray)]
            && s.log == [] && s.lost == 1 && s.serving == [] && s.buffer == []
  {
    var before := UnsubscribedTwice(max, notice);
    steps := StrayTaken(max, before, Unsubscribe(1, notice), stray);
    RunOneMore(max, steps, Receive);
    LostOnArrival(Run(max, steps));
    steps := steps + [Receive];
  }

  /** A stray notice is taken by the only command on the deque and answers it. */
  lemma StrayTaken(max: nat, before: seq<Step>, c: Command, stray: Frame) returns (steps: seq<Step>)
    requires var s := Run(max, before); s.buffer == [c] && s.reader == Ready && c.unsubscribe && c.response == Multiple(1)
    requires c.received == 0
    ensures var s, s' := Run(max, before), Run(max, steps);
            && s'.buffer == [] && s'.reader == Ready && s'.answers == s.answers + [Answer(c, stray)]
            && s'.serving == s.serving && s'.lost == s.lost && s'.log == s.log
  {
    var s := Run(max, before);
    RunOneMore(max, before, Stray(stray));
    steps := before + [Stray(stray)];
    assert Run(max, steps) == s.(buffer := [], reader := Took(c, stray));
    steps := LastFrameAnswers(max, steps, c, stray);
  }

  lemma LastFrameAnswers(max: nat, before: seq<Step>, c: Command, frame: Frame) returns (steps: seq<Step>)
    requires Run(max, before).reader == Took(c, frame) && c.response == Multiple(1) && c.received == 0
    ensures var s, s' := Run(max, before), Run(max, steps);
            s' == Tell(Release(s, c), c, frame).(inFlight := s'.inFlight, reader := Ready)
  {
    RunOneMore(max, before, CountRead);
    steps := before + [CountRead];
    assert Run(max, steps).reader == Counted(c, frame);
    RunOneMore(max, steps, Respond);
    steps := steps + [Respond];
    assert Run(max, steps).reader == Answering(c, frame);
    RunOneMore(max, steps, Finish);
    steps := steps + [Finish];
  }

  // ---- Counting: the in-flight counter ----

  /** The command is on the deque but not in the counter. */
  predicate Uncounted(w: Writer) {
    (w.Pushed? || w.Written?) && !HasNoResponses(w.c)
  }

  function Skew(s: State): int {
    (if Uncounted(s.writer) then -1 else 0)
    + (if s.reader.Took? then 1 else if s.reader.Requeued? then -1 else 0)
  }

  /** The counter wraps at the word size while a reply overtakes the increment of its own write. */
  predicate Counts(s: State) {
    s.inFlight == Total(s) % WORD
  }

  function Total(s: State): int {
    |s.buffer| + s.silent + Skew(s)
  }

  lemma WrapAgrees(x: int)
    ensures WrapIncr(x % WORD) == (x + 1) % WORD
    ensures WrapDecr(x % WORD) == (x - 1) % WORD
  {
  }

  lemma WriterMoves(max: nat, s: State, step: Step)
    requires Enabled(s, step) && OfWriter(step) && !step.Fail?
    ensures var s' := Apply(max, s, step);
            if step.CountWrite? then s'.inFlight == WrapIncr(s.inFlight) && Total(s') == Total(s) + 1
            else s'.inFlight == s.inFlight && Total(s') == Total(s)
  {
  }

  lemma ReaderMoves(max: nat, s: State, step: Step)
    requires Enabled(s, step) && !OfWriter(step)
    ensures var s' := Apply(max, s, step);
            if step.CountRead? then s'.inFlight == WrapDecr(s.inFlight) && Total(s') == Total(s) - 1
            else if step.CountRequeue? then s'.inFlight == WrapIncr(s.inFlight) && Total(s') == Total(s) + 1
            else s'.inFlight == s.inFlight && Total(s') == Total(s)
  {
  }

  /** A failed write leaves the counter right exactly if it takes a command off the deque that it put there, or takes none
    * and put none there. */
  lemma FailedWriteCountsIff(max: nat, s: State)
    requires Counts(s) && s.writer.Pushed?
    ensures Counts(Apply(max, s, Fail)) <==> (HasNoResponses(s.writer.c) <==> s.buffer == [])
  {
    var s' := Apply(max, s, Fail);
    assert s'.inFlight == s.inFlight;
    var moved := Total(s') - Total(s);
    assert -1 <= moved <= 1 && (moved == 0 <==> (HasNoResponses(s.writer.c) <==> s.buffer == []));
    NeighboursDiffer(Total(s));
  }

  lemma NeighboursDiffer(x: int)
    ensures (x + 1) % WORD != x % WORD && (x - 1) % WORD != x % WORD
  {
  }

  /** In every run, whatever the server sends, the counter agrees with the deque until a write fails. */
  lemma {:induction false} EveryRunCounts(max: nat, steps: seq<Step>)
    ensures !Run(max, steps).writer.Broken? ==> Counts(Run(max, steps))
  {
    if steps != [] {
      EveryRunCounts(max, steps[..|steps| - 1]);
      StepCounts(max, Run(max, steps[..|steps| - 1]), steps[|steps| - 1]);
    }
  }

  lemma StepCounts(max: nat, s: State, step: Step)
    requires !s.writer.Broken? ==> Counts(s)
    ensures !Apply(max, s, step).writer.Broken? ==> Counts(Apply(max, s, step))
  {
    if Enabled(s, step) && !step.Fail? && !s.writer.Broken? {
      if OfWriter(step) {
        WriterMoves(max, s, step);
      } else {
        ReaderMoves(max, s, step);
      }
      WrapAgrees(Total(s));
    }
  }

  /** With the server and the socket of the matching theorems the counter is right after a failed write too. */
  lemma {:induction false} AllowedRunCounts(max: nat, steps: seq<Step>)
    requires AllowedRun(max, steps)
    ensures Counts(Run(max, steps))
  {
    if steps != [] {
      var before, step := steps[..|steps| - 1], steps[|steps| - 1];
      AllowedRunCounts(max, before);
      EveryRunMatches(max, before);
      AllowedStepCounts(max, Run(max, before), step);
    }
  }

  lemma AllowedStepCounts(max: nat, s: State, step: Step)
    requires Counts(s) && Allowed(s, step) && (Unsent(s.writer) ==> s.buffer != [])
    ensures Counts(Apply(max, s, step))
  {
    if Enabled(s, step) {
      if step.Fail? {
        FailedWriteCountsIff(max, s);
      } else {
        if OfWriter(step) {
          WriterMoves(max, s, step);
        } else {
          ReaderMoves(max, s, step);
        }
        WrapAgrees(Total(s));
      }
    }
  }

  /** In every run, whenever both tasks are between steps and no write has failed (or the server and the socket are those of
    * the matching theorems), the counter is the number of commands on
    * the deque plus the number of argument-less unsubscribes ever written: those are counted up and never down. */
  lemma CounterIsDequePlusSilentWrites(max: nat, steps: seq<Step>)
    ensures var s := Run(max, steps);
            !s.writer.Pushed? && !s.writer.Written? && s.reader.Ready? && (!s.writer.Broken? || AllowedRun(max, steps)) ==>
              s.inFlight == (|s.buffer| + s.silent) % WORD
  {
    EveryRunCounts(max, steps);
    if AllowedRun(max, steps) {
      AllowedRunCounts(max, steps);
    }
  }
}
