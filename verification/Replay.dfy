/** Disconnects and replays on a centralized connection. The router writes commands, keeps those it cannot send on a retry
  * buffer and replays the buffer after it reconnects, while the reader task of the current connection answers commands and
  * at some point stops. */
module Replay {
  import opened Prelude

  /** `channel` is whether the command holds a sender to the router. A `silent` command is an UNSUBSCRIBE without arguments,
    * which never enters the deque of in-flight commands. */
  datatype Cmd = Cmd(id: nat, attempted: nat, channel: bool, silent: bool)

  /** `max` is `max_command_attempts`, `policy` is whether a reconnect policy is set. */
  datatype Config = Config(max: nat, policy: bool)

  // ---- The reader's shutdown ----

  /** `check_blocked_router`: the front command leaves the deque if it holds a router channel. */
  function Unblocked(buffer: seq<Cmd>): (Option<Cmd>, seq<Cmd>) {
    if buffer != [] && buffer[0].channel then (Some(buffer[0]), buffer[1..]) else (None, buffer)
  }

  predicate OutOfAttempts(cfg: Config, c: Cmd) {
    c.channel && c.attempted >= cfg.max
  }

  /** The deque after `check_final_write_attempt`. */
  function Survivors(cfg: Config, buffer: seq<Cmd>): seq<Cmd> {
    if buffer == [] then []
    else
      var last := buffer[|buffer| - 1];
      Survivors(cfg, buffer[..|buffer| - 1]) + if OutOfAttempts(cfg, last) then [] else [last]
  }

  /** The deque after the reader's shutdown. */
  function Shut(cfg: Config, buffer: seq<Cmd>): seq<Cmd> {
    Survivors(cfg, Unblocked(buffer).1)
  }

  // ---- One write ----

  /** What the environment makes of one write: the caller gave up, backpressure applies, the command cannot be encoded, the
    * frame was written, or the socket failed. */
  datatype Outcome = TimedOut | Pressure | Unencodable | Delivered | Broken

  /** `told` is whether the caller of the popped command got the write error. */
  datatype Written = Ignore | Sent | Backpressure(c: Cmd) | Disconnect(popped: Cmd, told: bool)

  /** `incr_check_attempted` rejects the command that was already counted once more. */
  predicate Spent(cfg: Config, c: Cmd) {
    cfg.max > 0 && c.attempted > cfg.max
  }

  /** `should_send_write_error` */
  predicate SendsWriteError(cfg: Config, c: Cmd) {
    c.attempted >= cfg.max || !cfg.policy
  }

  /** `utils::write_command` on a connection: the new deque and what is returned. */
  function Write(cfg: Config, inflight: seq<Cmd>, c: Cmd, outcome: Outcome): (seq<Cmd>, Written) {
    match outcome
    case TimedOut => (inflight, Ignore)
    case Pressure => (inflight, Backpressure(c))
    case Unencodable => (inflight, Ignore)
    case Delivered => (if c.silent then inflight else inflight + [c], Sent)
    case Broken =>
      if !c.silent then (inflight, Disconnect(c, SendsWriteError(cfg, c)))
      else if inflight == [] then (inflight, Ignore)
      else
        var popped := inflight[|inflight| - 1];
        (inflight[..|inflight| - 1], Disconnect(popped, SendsWriteError(cfg, popped)))
  }

  /** The command to buffer after the deque. */
  function Saved(w: Written): seq<Cmd>
    requires w.Disconnect?
  {
    if w.told then [] else [w.popped]
  }

  // ---- The protocol ----

  datatype Conn = Conn(inflight: seq<Cmd>, working: bool)

  /** `Waiting` is blocked on the channel of the command just written. `Closing` waits for the reader to finish before it
    * saves the deque and then the popped command. `Replaying` is inside `retry_buffer`. */
  datatype Phase = Idle | Waiting(id: nat) | Closing(popped: seq<Cmd>) | Replaying(rest: seq<Cmd>)

  /** `hand` is the command the write loop holds, `next` the id of the next command. */
  datatype State = State(conn: Option<Conn>, retry: seq<Cmd>, hand: Option<Cmd>, phase: Phase, next: nat)

  const START := State(None, [], None, Idle, 0)

  datatype Step =
    | Submit(attempted: nat, silent: bool)
    | WriteHand(blocking: bool, outcome: Outcome)
    | Answer
    | ReaderStops
    | Close
    | Drain
    | Connect
    | Resend(outcome: Outcome)
    | EndReplay
    | Stop

  predicate Free(s: State) {
    s.phase.Idle?
  }

  /** A frame is written only while the reader task runs (`is_working`). */
  predicate Possible(s: State, outcome: Outcome) {
    s.conn.Some? && outcome.Delivered? ==> s.conn.value.working
  }

  predicate Enabled(s: State, step: Step) {
    match step
    case Submit(_, _) => Free(s) && s.hand.None?
    case WriteHand(_, outcome) => Free(s) && s.hand.Some? && Possible(s, outcome)
    case Answer => s.conn.Some? && s.conn.value.working && s.conn.value.inflight != []
    case ReaderStops => s.conn.Some? && s.conn.value.working
    case Close => Free(s) && s.conn.Some?
    case Drain => s.phase.Closing? && s.conn.Some? && !s.conn.value.working
    case Connect => Free(s) && s.conn.None?
    case Resend(outcome) =>
      s.phase.Replaying? && s.phase.rest != [] && s.conn.Some? && !outcome.Pressure? && Possible(s, outcome)
    case EndReplay => s.phase.Replaying? && s.phase.rest == []
    case Stop => Free(s)
  }

  predicate Holds(cs: seq<Cmd>, id: nat) {
    exists i :: 0 <= i < |cs| && cs[i].id == id
  }

  /** The command as it goes into the next write. */
  function Counted(c: Cmd, blocking: bool): Cmd {
    c.(attempted := c.attempted + 1, channel := c.channel || blocking)
  }

  /** What the write loop does with the result of a write. */
  function AfterWrite(s: State, c: Cmd, blocking: bool, deque: seq<Cmd>, written: Written): State
    requires s.conn.Some?
  {
    var conn := Some(s.conn.value.(inflight := deque));
    match written
    case Ignore => State(conn, s.retry, None, Idle, s.next)
    case Backpressure(c') => State(conn, s.retry, Some(c'), Idle, s.next)
    case Disconnect(_, _) => State(conn, s.retry, None, Closing(Saved(written)), s.next)
    case Sent => State(conn, s.retry, None, if blocking && !c.silent then Waiting(c.id) else Idle, s.next)
  }

  /** The write loop writes the command in its hand. Without a connection the command goes to the retry buffer, and the error
    * is returned. A pipeline goes on with its next command then. For any other command the error ends the router task, which
    * clears the buffer: that is the step `Stop` right after this one. */
  function WritesHand(cfg: Config, s: State, blocking: bool, outcome: Outcome): State
    requires Enabled(s, WriteHand(blocking, outcome))
  {
    var c := Counted(s.hand.value, blocking);
    if Spent(cfg, c) then s.(hand := None)
    else if s.conn.None? then s.(hand := None, retry := s.retry + [c])
    else
      var r := Write(cfg, s.conn.value.inflight, c, outcome);
      AfterWrite(s, c, blocking, r.0, r.1)
  }

  /** The reader stops. A command that blocks the router goes back to the write loop, unless it is out of attempts. */
  function ReaderStopped(cfg: Config, s: State): State
    requires Enabled(s, ReaderStops)
  {
    var (front, rest) := Unblocked(s.conn.value.inflight);
    var left := Survivors(cfg, rest);
    State(Some(Conn(left, false)),
          s.retry,
          if front.Some? && s.phase == Waiting(front.value.id) && front.value.attempted < cfg.max
          then Some(front.value.(channel := false)) else s.hand,
          if s.phase.Waiting? && !Holds(left, s.phase.id) then Idle else s.phase,
          s.next)
  }

  /** What `retry_buffer` does with the result of a write. A failed write ends the loop, and the commands it did not reach
    * are dropped. */
  function AfterResend(s: State, deque: seq<Cmd>, written: Written): State
    requires s.conn.Some? && s.phase.Replaying? && s.phase.rest != []
  {
    s.(conn := Some(s.conn.value.(inflight := deque)),
       phase := if written.Disconnect? then Closing(Saved(written)) else Replaying(s.phase.rest[1..]))
  }

  /** One iteration of `retry_buffer`. */
  function Resent(cfg: Config, s: State, outcome: Outcome): State
    requires Enabled(s, Resend(outcome))
  {
    var c := Counted(s.phase.rest[0], false);
    if outcome.TimedOut? || Spent(cfg, c) then AfterResend(s, s.conn.value.inflight, Ignore)
    else
      var r := Write(cfg, s.conn.value.inflight, c, outcome);
      AfterResend(s, r.0, r.1)
  }

  function Apply(cfg: Config, s: State, step: Step): State {
    if !Enabled(s, step) then s else
    match step
    case Submit(attempted, silent) => s.(hand := Some(Cmd(s.next, attempted, false, silent)), next := s.next + 1)
    case WriteHand(blocking, outcome) => WritesHand(cfg, s, blocking, outcome)
    case Answer =>
      var c := s.conn.value.inflight[0];
      s.(conn := Some(s.conn.value.(inflight := s.conn.value.inflight[1..])),
         phase := if s.phase == Waiting(c.id) then Idle else s.phase)
    case ReaderStops => ReaderStopped(cfg, s)
    case Close => s.(phase := Closing([]))
    case Drain => s.(conn := None, retry := s.retry + s.conn.value.inflight + s.phase.popped, phase := Idle)
    case Connect => s.(conn := Some(Conn([], true)), retry := [], phase := Replaying(s.retry))
    case Resend(outcome) => Resent(cfg, s, outcome)
    case EndReplay => s.(phase := Idle)
    case Stop => s.(conn := None, retry := [], hand := None)
  }

  function Run(cfg: Config, steps: seq<Step>): State {
    if steps == [] then START else Apply(cfg, Run(cfg, steps[..|steps| - 1]), steps[|steps| - 1])
  }

  // ---- Order ----

  /** The oldest commands: those in flight, or the saved ones if there is no connection. */
  function Behind(s: State): seq<Cmd> {
    if s.conn.Some? then s.conn.value.inflight else s.retry
  }

  /** The commands between those and the hand: the popped one, or those not replayed yet. */
  function Middle(s: State): seq<Cmd> {
    match s.phase
    case Closing(popped) => popped
    case Replaying(rest) => rest
    case _ => []
  }

  /** The ids increase from one command to the next, and stay below `top`. */
  ghost predicate Chain(cs: seq<Cmd>, top: nat) {
    cs == [] || (cs[|cs| - 1].id < top && Chain(cs[..|cs| - 1], cs[|cs| - 1].id))
  }

  /** The id that everything before `middle` has to stay below. */
  function Floor(middle: seq<Cmd>, top: nat): nat {
    if middle == [] then top else middle[0].id
  }

  /** The first id that comes after the connection, the replay and the popped command. */
  function Top(s: State): nat {
    match s.phase
    case Waiting(id) => id + 1
    case _ => if s.hand.Some? then s.hand.value.id else s.next
  }

  /** What the phases mean. */
  ghost predicate Shaped(s: State) {
    && (s.conn.Some? ==> s.retry == [])
    && (!s.phase.Idle? ==> s.conn.Some?)
    && (s.hand.Some? ==> s.hand.value.id < s.next)
    && (s.phase.Waiting? ==> s.phase.id < s.next)
  }

  /** The retry buffer, the deque, the popped or remaining commands and the hand hold the commands in submission order. */
  ghost predicate Lined(s: State) {
    Chain(Middle(s), Top(s)) && Chain(Behind(s), Floor(Middle(s), Top(s)))
  }

  ghost predicate Ordered(s: State) {
    Shaped(s) && Lined(s) && (s.phase.Waiting? ==> s.hand.None?)
  }

  lemma {:induction false} ChainMeans(cs: seq<Cmd>, top: nat, i: nat)
    requires Chain(cs, top) && i < |cs|
    ensures cs[i].id < top
    ensures forall j :: i < j < |cs| ==> cs[i].id < cs[j].id
  {
    var last := |cs| - 1;
    if i < last {
      ChainMeans(cs[..last], cs[last].id, i);
    }
  }

  lemma {:induction false} ChainUp(cs: seq<Cmd>, top: nat, higher: nat)
    requires Chain(cs, top) && top <= higher
    ensures Chain(cs, higher)
  {
  }

  lemma {:induction false} ChainTail(cs: seq<Cmd>, top: nat)
    requires Chain(cs, top) && cs != []
    ensures Chain(cs[1..], top)
    ensures cs[0].id < Floor(cs[1..], top)
  {
    var last := |cs| - 1;
    if last > 0 {
      ChainTail(cs[..last], cs[last].id);
      assert cs[1..][..last - 1] == cs[..last][1..];
    }
  }

  lemma {:induction false} ChainConcat(a: seq<Cmd>, b: seq<Cmd>, top: nat)
    requires Chain(b, top) && Chain(a, Floor(b, top))
    ensures Chain(a + b, top)
  {
    if b == [] {
      assert a + b == a;
    } else {
      var last := |b| - 1;
      ChainConcat(a, b[..last], b[last].id);
      assert (a + b)[..|a + b| - 1] == a + b[..last];
    }
  }

  /** Shutdown removes the front command if it holds a router channel, and after that exactly the commands that hold one and
    * are out of attempts. */
  lemma {:induction false} SurvivorsAre(cfg: Config, buffer: seq<Cmd>)
    ensures forall c :: c in Survivors(cfg, buffer) <==> c in buffer && !(c.channel && c.attempted >= cfg.max)
  {
    if buffer != [] {
      var front, last := buffer[..|buffer| - 1], buffer[|buffer| - 1];
      SurvivorsAre(cfg, front);
      assert buffer == front + [last];
    }
  }

  /** The commands that shutdown leaves keep their order. */
  lemma {:induction false} SurvivorsChain(cfg: Config, buffer: seq<Cmd>, top: nat)
    requires Chain(buffer, top)
    ensures Chain(Survivors(cfg, buffer), top)
  {
    if buffer != [] {
      var front, last := buffer[..|buffer| - 1], buffer[|buffer| - 1];
      SurvivorsChain(cfg, front, last.id);
      var kept := Survivors(cfg, front);
      ChainUp(kept, last.id, top);
      assert (kept + [last])[..|kept|] == kept;
      assert kept + [] == kept;
    }
  }

  lemma EveryStepKeepsShape(cfg: Config, s: State, step: Step)
    requires Shaped(s)
    ensures Shaped(Apply(cfg, s, step))
  {
  }

  /** A write adds at most the command itself at the end of the deque, or takes the end off again. */
  ghost predicate Fits(inflight: seq<Cmd>, c: Cmd, deque: seq<Cmd>, written: Written) {
    match written
    case Sent => Chain(deque, c.id + 1)
    case Disconnect(popped, _) => Chain(deque, popped.id) && popped.id <= c.id
    case Ignore => deque == inflight
    case Backpressure(c') => deque == inflight && c' == c
  }

  lemma WriteFits(cfg: Config, inflight: seq<Cmd>, c: Cmd, outcome: Outcome)
    requires Chain(inflight, c.id)
    ensures Fits(inflight, c, Write(cfg, inflight, c, outcome).0, Write(cfg, inflight, c, outcome).1)
  {
    assert (inflight + [c])[..|inflight|] == inflight;
  }

  lemma AfterWriteKeepsLine(s: State, c: Cmd, blocking: bool, deque: seq<Cmd>, written: Written)
    requires Ordered(s) && s.phase.Idle? && s.hand.Some? && c.id == s.hand.value.id && s.conn.Some?
    requires Fits(s.conn.value.inflight, c, deque, written)
    ensures Lined(AfterWrite(s, c, blocking, deque, written))
  {
    match written
    case Sent => ChainUp(deque, c.id + 1, s.next);
    case Disconnect(popped, _) => ChainUp(deque, popped.id, s.next);
    case Ignore => ChainUp(deque, c.id, s.next);
    case Backpressure(_) =>
  }

  lemma SpentKeepsLine(cfg: Config, s: State, blocking: bool, outcome: Outcome)
    requires Ordered(s) && Enabled(s, WriteHand(blocking, outcome)) && Spent(cfg, Counted(s.hand.value, blocking))
    ensures Lined(WritesHand(cfg, s, blocking, outcome))
  {
    ChainUp(Behind(s), s.hand.value.id, s.next);
  }

  lemma ChainAdds(cs: seq<Cmd>, c: Cmd, top: nat)
    requires Chain(cs, c.id) && c.id < top
    ensures Chain(cs + [c], top)
  {
    assert (cs + [c])[..|cs|] == cs;
  }

  lemma BufferedKeepsLine(cfg: Config, s: State, blocking: bool, outcome: Outcome)
    requires Ordered(s) && Enabled(s, WriteHand(blocking, outcome)) && !Spent(cfg, Counted(s.hand.value, blocking))
    requires s.conn.None?
    ensures Lined(WritesHand(cfg, s, blocking, outcome))
  {
    ChainAdds(s.retry, Counted(s.hand.value, blocking), s.next);
  }

  lemma WriteKeepsLine(cfg: Config, s: State, blocking: bool, outcome: Outcome)
    requires Ordered(s) && Enabled(s, WriteHand(blocking, outcome))
    requires !Spent(cfg, Counted(s.hand.value, blocking)) && s.conn.Some?
    ensures Lined(WritesHand(cfg, s, blocking, outcome))
  {
    var c := Counted(s.hand.value, blocking);
    var r := Write(cfg, s.conn.value.inflight, c, outcome);
    WriteFits(cfg, s.conn.value.inflight, c, outcome);
    AfterWriteKeepsLine(s, c, blocking, r.0, r.1);
  }

  lemma ShutChain(cfg: Config, buffer: seq<Cmd>, top: nat)
    requires Chain(buffer, top)
    ensures Chain(Shut(cfg, buffer), top)
  {
    if buffer != [] && buffer[0].channel {
      ChainTail(buffer, top);
    }
    SurvivorsChain(cfg, Unblocked(buffer).1, top);
  }

  /** A front command that is the youngest in flight is alone. */
  lemma FrontIsAlone(buffer: seq<Cmd>, top: nat)
    requires Chain(buffer, top) && buffer != [] && buffer[0].id + 1 == top
    ensures |buffer| == 1
  {
    var last := |buffer| - 1;
    ChainMeans(buffer, top, 0);
    assert buffer[last].id < top;
  }

  lemma WaitingShutdownKeepsLine(cfg: Config, s: State)
    requires Ordered(s) && Enabled(s, ReaderStops) && s.phase.Waiting?
    ensures Lined(ReaderStopped(cfg, s)) && (ReaderStopped(cfg, s).phase.Waiting? ==> ReaderStopped(cfg, s).hand.None?)
  {
    var buffer := s.conn.value.inflight;
    ShutChain(cfg, buffer, Top(s));
    ChainUp(Shut(cfg, buffer), Top(s), s.next);
    var front := Unblocked(buffer).0;
    if front.Some? && front.value.id == s.phase.id {
      FrontIsAlone(buffer, Top(s));
      assert Shut(cfg, buffer) == [];
    }
  }

  lemma ShutdownKeepsLine(cfg: Config, s: State)
    requires Ordered(s) && Enabled(s, ReaderStops)
    ensures Lined(ReaderStopped(cfg, s)) && (ReaderStopped(cfg, s).phase.Waiting? ==> ReaderStopped(cfg, s).hand.None?)
  {
    if s.phase.Waiting? {
      WaitingShutdownKeepsLine(cfg, s);
    } else {
      ShutChain(cfg, s.conn.value.inflight, Floor(Middle(s), Top(s)));
    }
  }

  lemma AfterResendKeepsLine(s: State, c: Cmd, deque: seq<Cmd>, written: Written)
    requires Ordered(s) && s.phase.Replaying? && s.phase.rest != [] && c.id == s.phase.rest[0].id
    requires Fits(s.conn.value.inflight, c, deque, written)
    ensures Lined(AfterResend(s, deque, written))
  {
    ChainTail(s.phase.rest, Top(s));
    var top := Floor(s.phase.rest[1..], Top(s));
    match written
    case Sent => ChainUp(deque, c.id + 1, top);
    case Disconnect(popped, _) =>
      ChainMeans(s.phase.rest, Top(s), 0);
      ChainUp(deque, popped.id, Top(s));
    case Ignore => ChainUp(deque, c.id, top);
    case Backpressure(_) => ChainUp(deque, c.id, top);
  }

  lemma ResendKeepsLine(cfg: Config, s: State, outcome: Outcome)
    requires Ordered(s) && Enabled(s, Resend(outcome))
    ensures Lined(Resent(cfg, s, outcome))
  {
    var c := Counted(s.phase.rest[0], false);
    if outcome.TimedOut? || Spent(cfg, c) {
      AfterResendKeepsLine(s, c, s.conn.value.inflight, Ignore);
    } else {
      var r := Write(cfg, s.conn.value.inflight, c, outcome);
      WriteFits(cfg, s.conn.value.inflight, c, outcome);
      AfterResendKeepsLine(s, c, r.0, r.1);
    }
  }

  lemma AnswerKeepsLine(cfg: Config, s: State)
    requires Ordered(s) && Enabled(s, Answer)
    ensures Lined(Apply(cfg, s, Answer))
  {
    ChainTail(s.conn.value.inflight, Floor(Middle(s), Top(s)));
    if s.phase.Waiting? {
      ChainUp(s.conn.value.inflight[1..], Top(s), s.next);
    }
  }

  lemma DrainKeepsLine(cfg: Config, s: State)
    requires Ordered(s) && Enabled(s, Drain)
    ensures Lined(Apply(cfg, s, Drain))
  {
    ChainConcat(s.conn.value.inflight, s.phase.popped, Top(s));
    assert s.retry + s.conn.value.inflight + s.phase.popped == s.conn.value.inflight + s.phase.popped;
  }

  lemma OtherStepsKeepLine(cfg: Config, s: State, step: Step)
    requires Ordered(s) && Enabled(s, step)
    requires step.Submit? || step.Close? || step.Connect? || step.EndReplay? || step.Stop?
    ensures Lined(Apply(cfg, s, step))
  {
  }

  lemma {:induction false} EveryRunKeepsOrder(cfg: Config, steps: seq<Step>)
    ensures Ordered(Run(cfg, steps))
  {
    if steps != [] {
      var s := Run(cfg, steps[..|steps| - 1]);
      EveryRunKeepsOrder(cfg, steps[..|steps| - 1]);
      StepKeepsOrder(cfg, s, steps[|steps| - 1]);
    }
  }

  lemma StepKeepsOrder(cfg: Config, s: State, step: Step)
    requires Ordered(s)
    ensures Ordered(Apply(cfg, s, step))
  {
    EveryStepKeepsShape(cfg, s, step);
    if Enabled(s, step) {
      match step
      case WriteHand(blocking, outcome) =>
        if Spent(cfg, Counted(s.hand.value, blocking)) {
          SpentKeepsLine(cfg, s, blocking, outcome);
        } else if s.conn.None? {
          BufferedKeepsLine(cfg, s, blocking, outcome);
        } else {
          WriteKeepsLine(cfg, s, blocking, outcome);
        }
      case ReaderStops => ShutdownKeepsLine(cfg, s);
      case Resend(outcome) => ResendKeepsLine(cfg, s, outcome);
      case Answer => AnswerKeepsLine(cfg, s);
      case Drain => DrainKeepsLine(cfg, s);
      case _ => OtherStepsKeepLine(cfg, s, step);
    }
  }

  // ---- Send order ----

  /** The id a step puts on the wire. */
  function Sends(cfg: Config, s: State, step: Step): Option<nat> {
    if !Enabled(s, step) || s.conn.None? then None else
    match step
    case WriteHand(blocking, outcome) =>
      var c := Counted(s.hand.value, blocking);
      if !Spent(cfg, c) && Write(cfg, s.conn.value.inflight, c, outcome).1.Sent? then Some(c.id) else None
    case Resend(outcome) =>
      var c := Counted(s.phase.rest[0], false);
      if !Spent(cfg, c) && Write(cfg, s.conn.value.inflight, c, outcome).1.Sent? then Some(c.id) else None
    case _ => None
  }

  /** One more id on the current connection. */
  function Logged(epochs: seq<seq<nat>>, id: nat): seq<seq<nat>>
    requires epochs != []
  {
    epochs[|epochs| - 1 := epochs[|epochs| - 1] + [id]]
  }

  function NextEpochs(cfg: Config, s: State, step: Step, epochs: seq<seq<nat>>): seq<seq<nat>> {
    if step.Connect? && Enabled(s, step) then epochs + [[]]
    else match Sends(cfg, s, step)
      case Some(id) => if epochs == [] then [] else Logged(epochs, id)
      case None => epochs
  }

  /** The ids written on each connection of a run, in writing order. */
  function Epochs(cfg: Config, steps: seq<Step>): seq<seq<nat>> {
    if steps == [] then []
    else
      var before := steps[..|steps| - 1];
      NextEpochs(cfg, Run(cfg, before), steps[|steps| - 1], Epochs(cfg, before))
  }

  /** The smallest id the current connection may still see. */
  function Bound(s: State): nat {
    match s.phase
    case Closing(_) => s.next
    case Replaying(rest) => Floor(rest, Top(s))
    case _ => Top(s)
  }

  ghost predicate LastBelow(ids: seq<nat>, bound: nat) {
    ids == [] || ids[|ids| - 1] < bound
  }

  ghost predicate EpochsRise(s: State, epochs: seq<seq<nat>>) {
    && (forall k :: 0 <= k < |epochs| ==> StrictlyIncreasing(epochs[k]))
    && (s.conn.Some? ==> epochs != [])
    && (s.conn.Some? && s.conn.value.working ==> LastBelow(epochs[|epochs| - 1], Bound(s)))
  }

  /** What is written is the next id in line. */
  lemma SendsTheNextInLine(cfg: Config, s: State, step: Step)
    requires Ordered(s) && Sends(cfg, s, step).Some?
    ensures Sends(cfg, s, step).value == Bound(s) < Bound(Apply(cfg, s, step))
    ensures s.conn.Some? && s.conn.value.working
  {
    if step.Resend? {
      ChainTail(s.phase.rest, Top(s));
    }
  }

  /** Within one connection the bound only grows. */
  ghost predicate Grows(s: State, s': State) {
    s'.conn.Some? ==> s.conn.Some? && (s'.conn.value.working ==> s.conn.value.working && Bound(s) <= Bound(s'))
  }

  lemma ResendGrows(cfg: Config, s: State, outcome: Outcome)
    requires Ordered(s) && Enabled(s, Resend(outcome))
    ensures Grows(s, Resent(cfg, s, outcome))
  {
    ChainTail(s.phase.rest, Top(s));
    ChainMeans(s.phase.rest, Top(s), 0);
  }

  lemma BoundGrows(cfg: Config, s: State, step: Step)
    requires Ordered(s) && !(step.Connect? && Enabled(s, step))
    ensures Grows(s, Apply(cfg, s, step))
  {
    if step.Resend? && Enabled(s, step) {
      ResendGrows(cfg, s, step.outcome);
    }
  }

  lemma LoggedRise(epochs: seq<seq<nat>>, id: nat)
    requires epochs != [] && LastBelow(epochs[|epochs| - 1], id)
    requires forall k :: 0 <= k < |epochs| ==> StrictlyIncreasing(epochs[k])
    ensures forall k :: 0 <= k < |Logged(epochs, id)| ==> StrictlyIncreasing(Logged(epochs, id)[k])
  {
    assert StrictlyIncreasing(epochs[|epochs| - 1] + [id]);
  }

  lemma StepKeepsEpochs(cfg: Config, s: State, step: Step, epochs: seq<seq<nat>>)
    requires Ordered(s) && EpochsRise(s, epochs)
    ensures EpochsRise(Apply(cfg, s, step), NextEpochs(cfg, s, step, epochs))
  {
    if !(step.Connect? && Enabled(s, step)) {
      BoundGrows(cfg, s, step);
      if Sends(cfg, s, step).Some? {
        SendsTheNextInLine(cfg, s, step);
        LoggedRise(epochs, Sends(cfg, s, step).value);
      }
    }
  }

  lemma {:induction false} EveryRunKeepsEpochs(cfg: Config, steps: seq<Step>)
    ensures EpochsRise(Run(cfg, steps), Epochs(cfg, steps))
  {
    if steps != [] {
      var before := steps[..|steps| - 1];
      EveryRunKeepsEpochs(cfg, before);
      EveryRunKeepsOrder(cfg, before);
      StepKeepsEpochs(cfg, Run(cfg, before), steps[|steps| - 1], Epochs(cfg, before));
    }
  }

  /** Two commands that were both written on two connections were written in the same order on both. */
  lemma SendOrderNeverChanges(cfg: Config, steps: seq<Step>, a: nat, b: nat, i: nat, j: nat, k: nat, l: nat)
    requires var e := Epochs(cfg, steps);
             && a < |e| && b < |e| && i < |e[a]| && j < |e[a]| && k < |e[b]| && l < |e[b]|
             && e[a][i] == e[b][k] && e[a][j] == e[b][l]
    ensures i < j <==> k < l
  {
    EveryRunKeepsEpochs(cfg, steps);
    var e := Epochs(cfg, steps);
    assert StrictlyIncreasing(e[a]) && StrictlyIncreasing(e[b]);
  }

  /** How many connections were made. */
  function Connects(cfg: Config, steps: seq<Step>): nat {
    if steps == [] then 0
    else
      var before, step := steps[..|steps| - 1], steps[|steps| - 1];
      Connects(cfg, before) + if step.Connect? && Enabled(Run(cfg, before), step) then 1 else 0
  }

  /** The id that step `i` of a run puts on the wire. */
  function SentAt(cfg: Config, steps: seq<Step>, i: nat): Option<nat>
    requires i < |steps|
  {
    Sends(cfg, Run(cfg, steps[..i]), steps[i])
  }

  /** How many ids were put on the wire since the last connection was made. */
  function SentSince(cfg: Config, steps: seq<Step>): nat {
    if steps == [] then 0
    else
      var before, step := steps[..|steps| - 1], steps[|steps| - 1];
      if step.Connect? && Enabled(Run(cfg, before), step) then 0
      else SentSince(cfg, before) + if Sends(cfg, Run(cfg, before), step).Some? then 1 else 0
  }

  /** There is a list of ids for every connection, and the last list is as long as it has to be. */
  lemma {:induction false} EpochsCount(cfg: Config, steps: seq<Step>)
    ensures |Epochs(cfg, steps)| == Connects(cfg, steps)
    ensures Epochs(cfg, steps) != [] ==> |Epochs(cfg, steps)[|Epochs(cfg, steps)| - 1]| == SentSince(cfg, steps)
  {
    if steps != [] {
      var before, step := steps[..|steps| - 1], steps[|steps| - 1];
      EpochsCount(cfg, before);
      EveryRunKeepsEpochs(cfg, before);
    }
  }

  /** One more step adds to the lists and takes nothing away. */
  lemma EpochsGrow(cfg: Config, s: State, step: Step, epochs: seq<seq<nat>>)
    ensures var next := NextEpochs(cfg, s, step, epochs);
            |epochs| <= |next| && forall k :: 0 <= k < |epochs| ==> epochs[k] <= next[k]
  {
  }

  /** Each id put on the wire is in the list of its connection, behind those put there before it. */
  lemma {:induction false} EverySendIsLogged(cfg: Config, steps: seq<Step>, i: nat)
    requires i < |steps| && SentAt(cfg, steps, i).Some?
    ensures var e, k, n := Epochs(cfg, steps), Connects(cfg, steps[..i]), SentSince(cfg, steps[..i]);
            0 < k <= |e| && n < |e[k - 1]| && e[k - 1][n] == SentAt(cfg, steps, i).value
    decreases |steps|
  {
    var before, step := steps[..|steps| - 1], steps[|steps| - 1];
    if i == |steps| - 1 {
      EpochsCount(cfg, before);
      EveryRunKeepsEpochs(cfg, before);
    } else {
      assert before[..i] == steps[..i] && before[i] == steps[i];
      EverySendIsLogged(cfg, before, i);
      EpochsGrow(cfg, Run(cfg, before), step, Epochs(cfg, before));
    }
  }

  lemma {:induction false} SentSinceGrows(cfg: Config, steps: seq<Step>, i: nat, j: nat)
    requires i < j <= |steps| && SentAt(cfg, steps, i).Some? && Connects(cfg, steps[..i]) == Connects(cfg, steps[..j])
    ensures SentSince(cfg, steps[..i]) < SentSince(cfg, steps[..j])
    decreases j
  {
    assert steps[..j][..j - 1] == steps[..j - 1] && steps[..j][j - 1] == steps[j - 1];
    if j > i + 1 {
      ConnectsGrow(cfg, steps, i, j - 1);
      SentSinceGrows(cfg, steps, i, j - 1);
    }
  }

  lemma {:induction false} ConnectsGrow(cfg: Config, steps: seq<Step>, i: nat, j: nat)
    requires i <= j <= |steps|
    ensures Connects(cfg, steps[..i]) <= Connects(cfg, steps[..j])
    decreases j
  {
    if i < j {
      assert steps[..j][..j - 1] == steps[..j - 1];
      ConnectsGrow(cfg, steps, i, j - 1);
    }
  }

  /** In every run, of two ids put on one connection the one put there first is the smaller: commands are written in submission
    * order, and none is written twice on one connection. */
  lemma EveryConnectionSeesSubmissionOrder(cfg: Config, steps: seq<Step>, i: nat, j: nat)
    requires i < j < |steps| && SentAt(cfg, steps, i).Some? && SentAt(cfg, steps, j).Some?
    requires Connects(cfg, steps[..i]) == Connects(cfg, steps[..j])
    ensures SentAt(cfg, steps, i).value < SentAt(cfg, steps, j).value
  {
    EverySendIsLogged(cfg, steps, i);
    EverySendIsLogged(cfg, steps, j);
    SentSinceGrows(cfg, steps, i, j);
    EveryRunKeepsEpochs(cfg, steps);
    assert StrictlyIncreasing(Epochs(cfg, steps)[Connects(cfg, steps[..i]) - 1]);
  }

  // ---- Accounting ----

  function Ids(cs: seq<Cmd>): set<nat> {
    if cs == [] then {} else Ids(cs[..|cs| - 1]) + {cs[|cs| - 1].id}
  }

  function Held(s: State): set<nat> {
    if s.hand.Some? then {s.hand.value.id} else {}
  }

  /** The commands that the router still holds. */
  function Live(s: State): set<nat> {
    Ids(Behind(s)) + Ids(Middle(s)) + Held(s)
  }

  /** The commands that `check_final_write_attempt` answers with the error. */
  function Removed(cfg: Config, buffer: seq<Cmd>): set<nat> {
    if buffer == [] then {}
    else
      var last := buffer[|buffer| - 1];
      Removed(cfg, buffer[..|buffer| - 1]) + if OutOfAttempts(cfg, last) then {last.id} else {}
  }

  /** The callers answered during a write. A silent command is answered before it is written. */
  function AnsweredBy(c: Cmd, written: Written): set<nat> {
    match written
    case Ignore => {c.id}
    case Backpressure(_) => {}
    case Sent => if c.silent then {c.id} else {}
    case Disconnect(popped, told) => (if c.silent then {c.id} else {}) + if told then {popped.id} else {}
  }

  /** What becomes of the front command at shutdown: it is handed back to the write loop, answered, or dropped. */
  function HandedBack(cfg: Config, s: State): set<nat>
    requires Enabled(s, ReaderStops)
  {
    var front := Unblocked(s.conn.value.inflight).0;
    if front.Some? && s.phase == Waiting(front.value.id) && front.value.attempted < cfg.max then {front.value.id} else {}
  }

  function FrontAnswered(cfg: Config, s: State): set<nat>
    requires Enabled(s, ReaderStops)
  {
    var front := Unblocked(s.conn.value.inflight).0;
    if front.Some? && s.phase == Waiting(front.value.id) && front.value.attempted >= cfg.max then {front.value.id} else {}
  }

  function FrontDropped(s: State): set<nat>
    requires Enabled(s, ReaderStops)
  {
    var front := Unblocked(s.conn.value.inflight).0;
    if front.Some? && s.phase != Waiting(front.value.id) then {front.value.id} else {}
  }

  /** The commands whose caller a step answers, or whose caller has given up. */
  function Answered(cfg: Config, s: State, step: Step): set<nat> {
    if !Enabled(s, step) then {} else
    match step
    case WriteHand(blocking, outcome) =>
      var c := Counted(s.hand.value, blocking);
      if Spent(cfg, c) then {c.id}
      else if s.conn.None? then {}
      else AnsweredBy(c, Write(cfg, s.conn.value.inflight, c, outcome).1)
    case Resend(outcome) =>
      var c := Counted(s.phase.rest[0], false);
      if outcome.TimedOut? || Spent(cfg, c) then {c.id}
      else AnsweredBy(c, Write(cfg, s.conn.value.inflight, c, outcome).1)
    case Answer => {s.conn.value.inflight[0].id}
    case ReaderStops => Removed(cfg, Unblocked(s.conn.value.inflight).1) + FrontAnswered(cfg, s)
    case _ => {}
  }

  /** The commands a step drops without an answer. */
  function Dropped(cfg: Config, s: State, step: Step): set<nat> {
    if !Enabled(s, step) then {} else
    match step
    case Resend(outcome) =>
      var c := Counted(s.phase.rest[0], false);
      if outcome.TimedOut? || Spent(cfg, c) || !Write(cfg, s.conn.value.inflight, c, outcome).1.Disconnect? then {}
      else Ids(s.phase.rest[1..])
    case ReaderStops => FrontDropped(s)
    case Stop => Live(s)
    case _ => {}
  }

  function Arrived(s: State, step: Step): set<nat> {
    if step.Submit? && Enabled(s, step) then {s.next} else {}
  }

  /** `after`, `answered` and `dropped` share out `before`. */
  ghost predicate Shares(before: set<nat>, after: set<nat>, answered: set<nat>, dropped: set<nat>) {
    && after + answered + dropped == before
    && after !! answered && after !! dropped && answered !! dropped
  }

  lemma {:induction false} IdsUnder(cs: seq<Cmd>, top: nat)
    requires Chain(cs, top)
    ensures forall id :: id in Ids(cs) ==> id < top
    ensures cs != [] ==> forall id :: id in Ids(cs) ==> cs[0].id <= id
  {
    if cs != [] {
      var last := |cs| - 1;
      IdsUnder(cs[..last], cs[last].id);
      ChainMeans(cs, top, 0);
    }
  }

  lemma {:induction false} IdsConcat(a: seq<Cmd>, b: seq<Cmd>)
    ensures Ids(a + b) == Ids(a) + Ids(b)
  {
    if b == [] {
      assert a + b == a;
    } else {
      IdsConcat(a, b[..|b| - 1]);
      assert (a + b)[..|a + b| - 1] == a + b[..|b| - 1];
    }
  }

  lemma IdsTail(cs: seq<Cmd>, top: nat)
    requires cs != [] && Chain(cs, top)
    ensures Ids(cs) == {cs[0].id} + Ids(cs[1..]) && cs[0].id !in Ids(cs[1..])
  {
    assert cs == [cs[0]] + cs[1..];
    IdsConcat([cs[0]], cs[1..]);
    assert [cs[0]][..0] == [];
    ChainTail(cs, top);
    IdsUnder(cs[1..], top);
  }

  /** Others that are not concerned can stay, or can be dropped too. */
  lemma SharesMore(before: set<nat>, after: set<nat>, answered: set<nat>, dropped: set<nat>, others: set<nat>)
    requires Shares(before, after, answered, dropped) && others !! before
    ensures Shares(before + others, after + others, answered, dropped)
    ensures Shares(before + others, after, answered + others, dropped)
    ensures Shares(before + others, after, answered, dropped + others)
  {
  }

  lemma {:induction false} IdsOfSurvivors(cfg: Config, buffer: seq<Cmd>, top: nat)
    requires Chain(buffer, top)
    ensures Shares(Ids(buffer), Ids(Survivors(cfg, buffer)), Removed(cfg, buffer), {})
  {
    if buffer != [] {
      var front, last := buffer[..|buffer| - 1], buffer[|buffer| - 1];
      IdsOfSurvivors(cfg, front, last.id);
      IdsUnder(front, last.id);
      var kept := Survivors(cfg, front);
      SharesMore(Ids(front), Ids(kept), Removed(cfg, front), {}, {last.id});
      if OutOfAttempts(cfg, last) {
        assert Survivors(cfg, buffer) == kept;
      } else {
        assert (kept + [last])[..|kept|] == kept;
        assert Ids(Survivors(cfg, buffer)) == Ids(kept) + {last.id};
        assert Removed(cfg, buffer) == Removed(cfg, front);
      }
    }
  }

  /** What a write leaves to be kept outside the deque. */
  function Kept(written: Written): set<nat> {
    match written
    case Backpressure(c) => {c.id}
    case Disconnect(popped, told) => if told then {} else {popped.id}
    case _ => {}
  }

  lemma WriteShares(cfg: Config, inflight: seq<Cmd>, c: Cmd, outcome: Outcome)
    requires Chain(inflight, c.id)
    ensures var r := Write(cfg, inflight, c, outcome);
            Shares(Ids(inflight) + {c.id}, Ids(r.0) + Kept(r.1), AnsweredBy(c, r.1), {})
  {
    IdsUnder(inflight, c.id);
    var r := Write(cfg, inflight, c, outcome);
    if outcome.Delivered? {
      assert (inflight + [c])[..|inflight|] == inflight;
    } else if outcome.Broken? && c.silent && inflight != [] {
      var last := |inflight| - 1;
      IdsUnder(inflight[..last], inflight[last].id);
    }
  }

  lemma IdsOfSaved(written: Written)
    requires written.Disconnect?
    ensures Ids(Saved(written)) == Kept(written)
  {
    if !written.told {
      assert [written.popped][..0] == [];
    }
  }

  lemma HandIsAlone(s: State)
    requires Ordered(s)
    ensures Ids(Behind(s)) !! Ids(Middle(s))
    ensures Held(s) !! Ids(Behind(s)) && Held(s) !! Ids(Middle(s))
    ensures s.next !in Live(s)
  {
    IdsUnder(Middle(s), Top(s));
    IdsUnder(Behind(s), Floor(Middle(s), Top(s)));
    if Middle(s) != [] {
      ChainMeans(Middle(s), Top(s), 0);
    }
  }

  /** One step shares out the commands it found: some stay, some are answered, some are dropped. */
  ghost predicate Accounts(cfg: Config, s: State, step: Step) {
    Shares(Live(s) + Arrived(s, step), Live(Apply(cfg, s, step)), Answered(cfg, s, step), Dropped(cfg, s, step))
  }

  lemma WriteAccounts(cfg: Config, s: State, step: Step)
    requires Ordered(s) && step.WriteHand? && Enabled(s, step)
    ensures Accounts(cfg, s, step)
  {
    var c := Counted(s.hand.value, step.blocking);
    var s' := Apply(cfg, s, step);
    HandIsAlone(s);
    assert Live(s) == Ids(Behind(s)) + {c.id};
    if Spent(cfg, c) {
      assert Live(s') == Ids(Behind(s));
    } else if s.conn.None? {
      IdsConcat(s.retry, [c]);
      assert [c][..0] == [];
      assert Live(s') == Live(s);
    } else {
      var r := Write(cfg, s.conn.value.inflight, c, step.outcome);
      WriteShares(cfg, s.conn.value.inflight, c, step.outcome);
      LiveAfterWrite(s, c, step.blocking, r.0, r.1);
    }
  }

  lemma LiveAfterWrite(s: State, c: Cmd, blocking: bool, deque: seq<Cmd>, written: Written)
    requires s.conn.Some? && s.phase.Idle?
    ensures Live(AfterWrite(s, c, blocking, deque, written)) == Ids(deque) + Kept(written)
  {
    if written.Disconnect? {
      IdsOfSaved(written);
    }
  }

  lemma AnswerAccounts(cfg: Config, s: State, step: Step)
    requires Ordered(s) && step.Answer? && Enabled(s, step)
    ensures Accounts(cfg, s, step)
  {
    HandIsAlone(s);
    IdsTail(s.conn.value.inflight, Floor(Middle(s), Top(s)));
    assert Middle(Apply(cfg, s, step)) == Middle(s);
  }

  lemma LiveAfterShutdown(cfg: Config, s: State)
    requires Ordered(s) && Enabled(s, ReaderStops)
    ensures Live(ReaderStopped(cfg, s)) ==
            Ids(Shut(cfg, s.conn.value.inflight)) + (Ids(Middle(s)) + Held(s)) + HandedBack(cfg, s)
  {
    assert Middle(ReaderStopped(cfg, s)) == Middle(s);
  }

  /** Sets only: the front command and the rest are shared out separately. */
  lemma ShutdownShares(rest: set<nat>, left: set<nat>, removed: set<nat>, others: set<nat>, back: set<nat>, told: set<nat>,
                       dropped: set<nat>)
    requires Shares(rest, left, removed, {}) && Shares(back + told + dropped, back, told, dropped)
    requires rest !! others && rest !! back + told + dropped && others !! back + told + dropped
    ensures Shares(back + told + dropped + rest + others, left + others + back, removed + told, dropped)
  {
  }

  lemma FrontShares(cfg: Config, s: State)
    requires Ordered(s) && Enabled(s, ReaderStops)
    ensures var rest := Unblocked(s.conn.value.inflight).1;
            var taken := HandedBack(cfg, s) + FrontAnswered(cfg, s) + FrontDropped(s);
            var others := Ids(Middle(s)) + Held(s);
            && Live(s) == taken + Ids(rest) + others
            && Ids(rest) !! others && Ids(rest) !! taken && others !! taken
            && Shares(taken, HandedBack(cfg, s), FrontAnswered(cfg, s), FrontDropped(s))
  {
    var buffer := s.conn.value.inflight;
    HandIsAlone(s);
    if Unblocked(buffer).0.Some? {
      IdsTail(buffer, Floor(Middle(s), Top(s)));
    }
  }

  lemma RestShares(cfg: Config, s: State)
    requires Ordered(s) && Enabled(s, ReaderStops)
    ensures var rest := Unblocked(s.conn.value.inflight).1;
            Shares(Ids(rest), Ids(Survivors(cfg, rest)), Removed(cfg, rest), {})
  {
    var buffer, top := s.conn.value.inflight, Floor(Middle(s), Top(s));
    if Unblocked(buffer).0.Some? {
      ChainTail(buffer, top);
    }
    IdsOfSurvivors(cfg, Unblocked(buffer).1, top);
  }

  lemma ShutdownAccounts(cfg: Config, s: State, step: Step)
    requires Ordered(s) && step.ReaderStops? && Enabled(s, step)
    ensures Accounts(cfg, s, step)
  {
    var rest := Unblocked(s.conn.value.inflight).1;
    FrontShares(cfg, s);
    RestShares(cfg, s);
    LiveAfterShutdown(cfg, s);
    ShutdownShares(Ids(rest), Ids(Survivors(cfg, rest)), Removed(cfg, rest), Ids(Middle(s)) + Held(s), HandedBack(cfg, s),
                   FrontAnswered(cfg, s), FrontDropped(s));
  }

  /** Sets only: the rest of the replay stays or is dropped. */
  lemma ResendShares(inflight: set<nat>, c: nat, tail: set<nat>, held: set<nat>, kept: set<nat>, answered: set<nat>)
    requires Shares(inflight + {c}, kept, answered, {})
    requires c !in tail && inflight !! {c} + tail && held !! inflight && held !! {c} + tail
    ensures Shares(inflight + ({c} + tail) + held, kept + tail + held, answered, {})
    ensures Shares(inflight + ({c} + tail) + held, kept + held, answered, tail)
  {
    SharesMore(inflight + {c}, kept, answered, {}, held);
    SharesMore(inflight + {c} + held, kept + held, answered, {}, tail);
    assert inflight + {c} + held + tail == inflight + ({c} + tail) + held;
    assert kept + held + tail == kept + tail + held;
  }

  lemma AfterResendShares(s: State, c: Cmd, deque: seq<Cmd>, written: Written)
    requires Ordered(s) && s.phase.Replaying? && s.phase.rest != [] && c.id == s.phase.rest[0].id && !written.Backpressure?
    requires Shares(Ids(s.conn.value.inflight) + {c.id}, Ids(deque) + Kept(written), AnsweredBy(c, written), {})
    ensures Shares(Live(s), Live(AfterResend(s, deque, written)), AnsweredBy(c, written),
                   if written.Disconnect? then Ids(s.phase.rest[1..]) else {})
  {
    HandIsAlone(s);
    IdsTail(s.phase.rest, Top(s));
    ResendShares(Ids(s.conn.value.inflight), c.id, Ids(s.phase.rest[1..]), Held(s), Ids(deque) + Kept(written),
                 AnsweredBy(c, written));
    LiveAfterResend(s, deque, written);
  }

  lemma LiveAfterResend(s: State, deque: seq<Cmd>, written: Written)
    requires s.conn.Some? && s.phase.Replaying? && s.phase.rest != [] && !written.Backpressure?
    ensures Live(AfterResend(s, deque, written)) ==
            if written.Disconnect? then Ids(deque) + Kept(written) + Held(s)
            else Ids(deque) + Kept(written) + Ids(s.phase.rest[1..]) + Held(s)
  {
    if written.Disconnect? {
      IdsOfSaved(written);
    }
  }

  lemma ResendAccounts(cfg: Config, s: State, step: Step)
    requires Ordered(s) && step.Resend? && Enabled(s, step)
    ensures Accounts(cfg, s, step)
  {
    var inflight, c := s.conn.value.inflight, Counted(s.phase.rest[0], false);
    if step.outcome.TimedOut? || Spent(cfg, c) {
      IdsUnder(inflight, c.id);
      AfterResendShares(s, c, inflight, Ignore);
    } else {
      var r := Write(cfg, inflight, c, step.outcome);
      WriteShares(cfg, inflight, c, step.outcome);
      AfterResendShares(s, c, r.0, r.1);
    }
  }

  lemma LiveAfterDrain(cfg: Config, s: State)
    requires Ordered(s) && Enabled(s, Drain)
    ensures Live(Apply(cfg, s, Drain)) == Live(s)
  {
    var s' := Apply(cfg, s, Drain);
    var inflight, popped := s.conn.value.inflight, s.phase.popped;
    assert Behind(s') == inflight + popped && Middle(s') == [] && Held(s') == Held(s);
    IdsConcat(inflight, popped);
    assert Behind(s) == inflight && Middle(s) == popped;
  }

  lemma DrainAccounts(cfg: Config, s: State, step: Step)
    requires Ordered(s) && step.Drain? && Enabled(s, step)
    ensures Accounts(cfg, s, step)
  {
    LiveAfterDrain(cfg, s);
  }

  lemma OthersAccount(cfg: Config, s: State, step: Step)
    requires Ordered(s) && Enabled(s, step)
    requires step.Submit? || step.Close? || step.Connect? || step.EndReplay? || step.Stop?
    ensures Accounts(cfg, s, step)
  {
    HandIsAlone(s);
  }

  function AllAnswered(cfg: Config, steps: seq<Step>): set<nat> {
    if steps == [] then {}
    else
      var before := steps[..|steps| - 1];
      AllAnswered(cfg, before) + Answered(cfg, Run(cfg, before), steps[|steps| - 1])
  }

  function AllDropped(cfg: Config, steps: seq<Step>): set<nat> {
    if steps == [] then {}
    else
      var before := steps[..|steps| - 1];
      AllDropped(cfg, before) + Dropped(cfg, Run(cfg, before), steps[|steps| - 1])
  }

  function Upto(n: nat): (r: set<nat>)
    ensures forall i: nat :: i in r <==> i < n
  {
    if n == 0 then {} else Upto(n - 1) + {n - 1}
  }

  /** In every run each submitted command is in exactly one place: still held, answered, or dropped. */
  lemma {:induction false} EveryCommandIsAccountedFor(cfg: Config, steps: seq<Step>)
    ensures Shares(Upto(Run(cfg, steps).next), Live(Run(cfg, steps)), AllAnswered(cfg, steps), AllDropped(cfg, steps))
  {
    if steps != [] {
      var before, step := steps[..|steps| - 1], steps[|steps| - 1];
      var s := Run(cfg, before);
      EveryCommandIsAccountedFor(cfg, before);
      EveryRunKeepsOrder(cfg, before);
      StepAccounts(cfg, s, step);
      HandIsAlone(s);
      AddShares(Upto(s.next), Live(s), AllAnswered(cfg, before), AllDropped(cfg, before), Arrived(s, step),
                Live(Apply(cfg, s, step)), Answered(cfg, s, step), Dropped(cfg, s, step));
      NextGrows(cfg, s, step);
    }
  }

  lemma NextGrows(cfg: Config, s: State, step: Step)
    ensures Upto(Apply(cfg, s, step).next) == Upto(s.next) + Arrived(s, step)
  {
  }

  lemma AddShares(all: set<nat>, live: set<nat>, answered: set<nat>, dropped: set<nat>, arrived: set<nat>, live': set<nat>,
                  answered': set<nat>, dropped': set<nat>)
    requires Shares(all, live, answered, dropped) && all !! arrived
    requires Shares(live + arrived, live', answered', dropped')
    ensures Shares(all + arrived, live', answered + answered', dropped + dropped')
  {
  }

  lemma StepAccounts(cfg: Config, s: State, step: Step)
    requires Ordered(s)
    ensures Accounts(cfg, s, step)
  {
    if Enabled(s, step) {
      match step
      case WriteHand(_, _) => WriteAccounts(cfg, s, step);
      case Answer => AnswerAccounts(cfg, s, step);
      case ReaderStops => ShutdownAccounts(cfg, s, step);
      case Resend(_) => ResendAccounts(cfg, s, step);
      case Drain => DrainAccounts(cfg, s, step);
      case _ => OthersAccount(cfg, s, step);
    }
  }

  // ---- What a write does ----

  /** By its outcome: a command is sent and then in flight, unless it is one that never enters the deque; it is given back under
    * backpressure; it is done with if its caller gave up, if it cannot be encoded, or if there is nothing to pop. */
  lemma WriteDoes(cfg: Config, inflight: seq<Cmd>, c: Cmd, outcome: Outcome)
    ensures var (deque, written) := Write(cfg, inflight, c, outcome);
            && (written == Sent <==> outcome.Delivered?)
            && (written.Sent? ==> deque == if c.silent then inflight else inflight + [c])
            && (written == Backpressure(c) <==> outcome.Pressure?)
            && (written == Ignore <==> outcome.TimedOut? || outcome.Unencodable? || (outcome.Broken? && Popped(inflight, c) == None))
            && (written.Disconnect? ==> deque == if c.silent then inflight[..|inflight| - 1] else inflight)
            && (!written.Sent? && !written.Disconnect? ==> deque == inflight)
  {
  }

  /** A write is refused exactly if the command has used up its attempts, and there is a limit on them. */
  lemma RefusedIff(cfg: Config, c: Cmd, blocking: bool)
    ensures Spent(cfg, Counted(c, blocking)) <==> cfg.max > 0 && c.attempted >= cfg.max
    ensures Counted(c, blocking) == Cmd(c.id, c.attempted + 1, c.channel || blocking, c.silent)
  {
  }

  /** A reader that stops gives the command the router waits for back to the write loop, without its used channel, exactly if it
    * is the oldest in flight and has attempts left; without any left its caller is told. */
  lemma ShutdownHandsBackIff(cfg: Config, s: State)
    requires Ordered(s) && Enabled(s, ReaderStops) && s.phase.Waiting?
    ensures var deque, s' := s.conn.value.inflight, Apply(cfg, s, ReaderStops);
            var front := deque != [] && deque[0].channel && deque[0].id == s.phase.id;
            && (s'.hand.Some? <==> front && deque[0].attempted < cfg.max)
            && (s'.hand.Some? ==> s'.hand.value == deque[0].(channel := false) && s'.phase == Idle)
            && (front && deque[0].attempted >= cfg.max ==> s.phase.id in Answered(cfg, s, ReaderStops))
  {
    var buffer := s.conn.value.inflight;
    if buffer != [] && buffer[0].channel && buffer[0].id == s.phase.id {
      FrontIsAlone(buffer, s.phase.id + 1);
      assert buffer[1..] == [];
    }
  }

  // ---- What becomes of a command whose write failed ----

  /** The command that a failed write takes off the deque: the one written, or for a command that never enters the deque the
    * last one in flight. */
  function Popped(inflight: seq<Cmd>, c: Cmd): Option<Cmd> {
    if !c.silent then Some(c) else if inflight == [] then None else Some(inflight[|inflight| - 1])
  }

  /** It can be sent again: there is a policy to reconnect by, and it has attempts left. */
  predicate CanRetry(cfg: Config, c: Cmd) {
    cfg.policy && c.attempted < cfg.max
  }

  /** A write disconnects exactly if the socket fails with a command to pop, and its caller is told exactly if that command
    * cannot be sent again. */
  lemma FailedWriteTellsIff(cfg: Config, inflight: seq<Cmd>, c: Cmd, outcome: Outcome)
    ensures var written, popped := Write(cfg, inflight, c, outcome).1, Popped(inflight, c);
            && (written.Disconnect? <==> outcome.Broken? && popped.Some?)
            && (written.Disconnect? ==> written.popped == popped.value && (written.told <==> !CanRetry(cfg, popped.value)))
  {
  }

  /** Whatever waits to be saved after a disconnect can be sent again. */
  ghost predicate SavesRetryable(cfg: Config, s: State) {
    s.phase.Closing? ==> |s.phase.popped| <= 1 && forall c :: c in s.phase.popped ==> CanRetry(cfg, c)
  }

  lemma StepSavesRetryable(cfg: Config, s: State, step: Step)
    requires SavesRetryable(cfg, s)
    ensures SavesRetryable(cfg, Apply(cfg, s, step))
  {
  }

  /** In every run a command whose write failed is kept only if it can be sent again. */
  lemma {:induction false} EveryRunSavesRetryable(cfg: Config, steps: seq<Step>)
    ensures SavesRetryable(cfg, Run(cfg, steps))
  {
    if steps != [] {
      var before := steps[..|steps| - 1];
      EveryRunSavesRetryable(cfg, before);
      StepSavesRetryable(cfg, Run(cfg, before), steps[|steps| - 1]);
    }
  }

  /** The command a step writes, if it writes one: with one more attempt, and not refused for too many. */
  function Attempts(cfg: Config, s: State, step: Step): Option<Cmd> {
    if !Enabled(s, step) || s.conn.None? then None
    else match step
      case WriteHand(blocking, _) =>
        var c := Counted(s.hand.value, blocking);
        if Spent(cfg, c) then None else Some(c)
      case Resend(outcome) =>
        var c := Counted(s.phase.rest[0], false);
        if outcome.TimedOut? || Spent(cfg, c) then None else Some(c)
      case _ => None
  }

  /** In every run a write that fails either answers the popped command, exactly if it cannot be sent again, or keeps it to be
    * saved; and a command that never enters the deque is answered at once. */
  lemma FailedWriteAnswersIff(cfg: Config, steps: seq<Step>, step: Step)
    requires (step.WriteHand? || step.Resend?) && step.outcome.Broken? && Attempts(cfg, Run(cfg, steps), step).Some?
    ensures var s := Run(cfg, steps);
            var s', c := Apply(cfg, s, step), Attempts(cfg, s, step).value;
            match Popped(s.conn.value.inflight, c)
            case None => Answered(cfg, s, step) == {c.id} && !s'.phase.Closing?
            case Some(popped) =>
              && (popped.id in Answered(cfg, s, step) <==> !CanRetry(cfg, popped))
              && s'.phase == Closing(if CanRetry(cfg, popped) then [popped] else [])
              && (c.silent ==> c.id in Answered(cfg, s, step))
  {
    var s := Run(cfg, steps);
    EveryRunKeepsOrder(cfg, steps);
    var inflight, c := s.conn.value.inflight, Attempts(cfg, s, step).value;
    FailedWriteTellsIff(cfg, inflight, c, step.outcome);
    if c.silent && inflight != [] {
      LastIsOlder(s, step, c);
    }
  }

  lemma LastIsOlder(s: State, step: Step, c: Cmd)
    requires Ordered(s) && Enabled(s, step) && s.conn.Some? && s.conn.value.inflight != []
    requires (step.WriteHand? && c.id == s.hand.value.id) || (step.Resend? && c.id == s.phase.rest[0].id)
    ensures s.conn.value.inflight[|s.conn.value.inflight| - 1].id < c.id
  {
    ChainMeans(Behind(s), Floor(Middle(s), Top(s)), |Behind(s)| - 1);
  }

  /** `retry_buffer` documents that the commands it could not send stay buffered. It drops the ones after a failed write:
    * nothing is dropped exactly if the write does not disconnect or the failed command was the last one. */
  lemma ReplayKeepsTheRestIff(cfg: Config, s: State, outcome: Outcome)
    requires Ordered(s) && Enabled(s, Resend(outcome))
    ensures var c := Counted(s.phase.rest[0], false);
            Dropped(cfg, s, Resend(outcome)) == {} <==>
              || !outcome.Broken? || Spent(cfg, c) || (c.silent && s.conn.value.inflight == [])
              || |s.phase.rest| == 1
  {
    var rest := s.phase.rest[1..];
    if rest != [] {
      assert rest[|rest| - 1].id in Ids(rest);
    }
  }

  lemma RunOneMore(cfg: Config, steps: seq<Step>, step: Step)
    ensures Run(cfg, steps + [step]) == Apply(cfg, Run(cfg, steps), step)
    ensures AllDropped(cfg, steps + [step]) == AllDropped(cfg, steps) + Dropped(cfg, Run(cfg, steps), step)
  {
    assert (steps + [step])[..|steps|] == steps;
  }

  lemma FirstConnected(cfg: Config) returns (steps: seq<Step>)
    ensures Run(cfg, steps) == State(Some(Conn([], true)), [], None, Idle, 0)
    ensures AllDropped(cfg, steps) == {}
  {
    RunOneMore(cfg, [], Connect);
    steps := [] + [Connect];
    RunOneMore(cfg, steps, EndReplay);
    steps := steps + [EndReplay];
  }

  /** A pipelined command is submitted and written on a working connection. */
  lemma OneMoreInFlight(cfg: Config, before: seq<Step>, deque: seq<Cmd>, id: nat) returns (steps: seq<Step>)
    requires cfg == Config(3, true) && Run(cfg, before) == State(Some(Conn(deque, true)), [], None, Idle, id)
    ensures Run(cfg, steps) == State(Some(Conn(deque + [Cmd(id, 1, false, false)], true)), [], None, Idle, id + 1)
    ensures AllDropped(cfg, steps) == AllDropped(cfg, before)
  {
    RunOneMore(cfg, before, Submit(0, false));
    steps := before + [Submit(0, false)];
    assert Run(cfg, steps) == State(Some(Conn(deque, true)), [], Some(Cmd(id, 0, false, false)), Idle, id + 1);
    RunOneMore(cfg, steps, WriteHand(false, Delivered));
    steps := steps + [WriteHand(false, Delivered)];
  }

  lemma BothSurvive(cfg: Config, first: Cmd, second: Cmd)
    requires !first.channel && !second.channel
    ensures Shut(cfg, [first, second]) == [first, second]
  {
    assert [first, second][..1] == [first] && [first][..0] == [];
    assert Survivors(cfg, [first]) == [first];
    assert [first] + [second] == [first, second];
  }

  /** Two commands are in flight when the connection closes, and both wait for the next one. */
  lemma TwoWaiting(cfg: Config) returns (steps: seq<Step>)
    requires cfg == Config(3, true)
    ensures Run(cfg, steps) == State(None, [Cmd(0, 1, false, false), Cmd(1, 1, false, false)], None, Idle, 2)
    ensures AllDropped(cfg, steps) == {}
  {
    var first, second := Cmd(0, 1, false, false), Cmd(1, 1, false, false);
    steps := FirstConnected(cfg);
    steps := OneMoreInFlight(cfg, steps, [], 0);
    assert [] + [first] == [first] && [first] + [second] == [first, second];
    steps := OneMoreInFlight(cfg, steps, [first], 1);
    steps := Disconnected(cfg, steps, first, second);
  }

  lemma Disconnected(cfg: Config, before: seq<Step>, first: Cmd, second: Cmd) returns (steps: seq<Step>)
    requires Run(cfg, before) == State(Some(Conn([first, second], true)), [], None, Idle, 2)
    requires !first.channel && !second.channel
    ensures Run(cfg, steps) == State(None, [first, second], None, Idle, 2)
    ensures AllDropped(cfg, steps) == AllDropped(cfg, before)
  {
    BothSurvive(cfg, first, second);
    RunOneMore(cfg, before, ReaderStops);
    steps := before + [ReaderStops];
    assert Run(cfg, steps) == State(Some(Conn([first, second], false)), [], None, Idle, 2);
    RunOneMore(cfg, steps, Close);
    steps := steps + [Close];
    assert Run(cfg, steps) == State(Some(Conn([first, second], false)), [], None, Closing([]), 2);
    RunOneMore(cfg, steps, Drain);
    steps := steps + [Drain];
    assert [] + [first, second] + [] == [first, second];
  }

  lemma FirstResendFails(cfg: Config) returns (steps: seq<Step>)
    requires cfg == Config(3, true)
    ensures Run(cfg, steps) == State(Some(Conn([], true)), [], None, Closing([Cmd(0, 2, false, false)]), 2)
    ensures AllDropped(cfg, steps) == {1}
  {
    var first, second := Cmd(0, 1, false, false), Cmd(1, 1, false, false);
    steps := TwoWaiting(cfg);
    RunOneMore(cfg, steps, Connect);
    steps := steps + [Connect];
    assert Run(cfg, steps) == State(Some(Conn([], true)), [], None, Replaying([first, second]), 2);
    RunOneMore(cfg, steps, Resend(Broken));
    assert [first, second][1..] == [second] && Ids([second]) == {1} by {
      assert [second][..0] == [];
    }
    steps := steps + [Resend(Broken)];
  }

  /** Two commands are in flight when the connection closes; the first resend fails, and the second command is gone. */
  lemma ReplayCanLoseACommand() returns (steps: seq<Step>)
    ensures var s := Run(Config(3, true), steps);
            s.next == 2 && s.conn == None && s.retry == [Cmd(0, 2, false, false)] && s.hand == None && s.phase == Idle
    ensures AllDropped(Config(3, true), steps) == {1}
  {
    var cfg, popped := Config(3, true), Cmd(0, 2, false, false);
    steps := FirstResendFails(cfg);
    RunOneMore(cfg, steps, ReaderStops);
    steps := steps + [ReaderStops];
    assert Run(cfg, steps) == State(Some(Conn([], false)), [], None, Closing([popped]), 2);
    RunOneMore(cfg, steps, Drain);
    steps := steps + [Drain];
    assert [] + [] + [popped] == [popped];
  }

  // ---- Dead channels ----

  /** Only the command the router waits for, if it waits, holds a router channel. */
  ghost predicate Listening(cs: seq<Cmd>, phase: Phase) {
    forall i :: 0 <= i < |cs| && cs[i].channel ==> phase == Waiting(cs[i].id)
  }

  /** No command holds a router channel that nobody listens to. */
  ghost predicate NoDeadChannel(s: State) {
    Listening(Behind(s), s.phase) && Listening(Middle(s), s.phase)
  }

  lemma ListeningConcat(a: seq<Cmd>, b: seq<Cmd>, phase: Phase)
    requires Listening(a, phase) && Listening(b, phase)
    ensures Listening(a + b, phase)
  {
  }

  /** Outside of `Waiting` all phases mean the same here. */
  lemma ListeningOn(cs: seq<Cmd>, phase: Phase, phase': Phase)
    requires Listening(cs, phase) && !phase.Waiting?
    ensures Listening(cs, phase')
  {
  }

  /** A reader that stops answers or keeps every command, exactly unless the front command holds a router channel and the
    * router does not wait for it: that command is discarded. */
  lemma ShutdownKeepsTheFrontIff(cfg: Config, s: State)
    requires Enabled(s, ReaderStops)
    ensures var deque := s.conn.value.inflight;
            Dropped(cfg, s, ReaderStops) == {} <==> deque == [] || !deque[0].channel || s.phase == Waiting(deque[0].id)
  {
  }

  /** A command with a router channel is written on a connection, waited for, and the write does not fail. */
  ghost predicate Heard(s: State, step: Step) {
    step.WriteHand? && Enabled(s, step) && Counted(s.hand.value, step.blocking).channel ==>
      step.blocking && s.conn.Some? && !step.outcome.Broken?
  }

  ghost predicate HeardRun(cfg: Config, steps: seq<Step>) {
    steps == [] || (HeardRun(cfg, steps[..|steps| - 1]) && Heard(Run(cfg, steps[..|steps| - 1]), steps[|steps| - 1]))
  }

  /** The deque after a write, if the router then waits for a command with a channel. */
  lemma WriteIsHeard(cfg: Config, inflight: seq<Cmd>, c: Cmd, outcome: Outcome, phase: Phase)
    requires Listening(inflight, Idle) && (c.channel ==> phase == Waiting(c.id) || c.silent || !outcome.Delivered?)
    ensures Listening(Write(cfg, inflight, c, outcome).0, phase)
  {
    ListeningOn(inflight, Idle, phase);
  }

  /** The command that a failed write pops has no channel, unless it is the one written. */
  lemma PoppedIsMute(cfg: Config, inflight: seq<Cmd>, c: Cmd, outcome: Outcome, phase: Phase)
    requires Listening(inflight, Idle) && (c.channel ==> !outcome.Broken?)
    ensures var w := Write(cfg, inflight, c, outcome).1; w.Disconnect? ==> Listening(Saved(w), phase)
  {
  }

  lemma AfterWriteIs(s: State, c: Cmd, blocking: bool, deque: seq<Cmd>, written: Written)
    requires s.conn.Some? && s.phase.Idle?
    ensures var s' := AfterWrite(s, c, blocking, deque, written);
            && Behind(s') == deque
            && Middle(s') == (if written.Disconnect? then Saved(written) else [])
            && (s'.phase == Waiting(c.id) || !(written.Sent? && blocking && !c.silent))
  {
  }

  lemma WriteLeavesNoDeadChannel(cfg: Config, s: State, step: Step)
    requires Shaped(s) && NoDeadChannel(s) && Heard(s, step) && step.WriteHand? && Enabled(s, step)
    ensures NoDeadChannel(Apply(cfg, s, step))
  {
    var c, behind := Counted(s.hand.value, step.blocking), Behind(s);
    var s' := Apply(cfg, s, step);
    if Spent(cfg, c) {
      assert Behind(s') == behind;
    } else if s.conn.None? {
      ListeningConcat(behind, [c], s.phase);
      assert Behind(s') == behind + [c];
    } else {
      var r := Write(cfg, behind, c, step.outcome);
      AfterWriteIs(s, c, step.blocking, r.0, r.1);
      WriteIsHeard(cfg, behind, c, step.outcome, s'.phase);
      PoppedIsMute(cfg, behind, c, step.outcome, s'.phase);
    }
  }

  lemma ShutdownLeavesNoDeadChannel(cfg: Config, s: State)
    requires Ordered(s) && NoDeadChannel(s) && Enabled(s, ReaderStops)
    ensures NoDeadChannel(Apply(cfg, s, ReaderStops))
  {
    var buffer := s.conn.value.inflight;
    var rest := Unblocked(buffer).1;
    var s' := Apply(cfg, s, ReaderStops);
    SurvivorsAre(cfg, rest);
    assert forall c :: c in rest ==> c in buffer;
    forall i | 0 <= i < |Behind(s')| && Behind(s')[i].channel
      ensures s'.phase == Waiting(Behind(s')[i].id)
    {
      var c := Behind(s')[i];
      assert c in rest && c in buffer;
      assert s.phase == Waiting(c.id);
      assert Holds(Behind(s'), c.id);
    }
  }

  lemma AnswerLeavesNoDeadChannel(cfg: Config, s: State)
    requires Ordered(s) && NoDeadChannel(s) && Enabled(s, Answer)
    ensures NoDeadChannel(Apply(cfg, s, Answer))
  {
    var buffer, rest := s.conn.value.inflight, s.conn.value.inflight[1..];
    ChainMeans(buffer, Floor(Middle(s), Top(s)), 0);
    assert buffer == Behind(s) && Behind(Apply(cfg, s, Answer)) == rest;
    assert forall i :: 0 <= i < |rest| ==> rest[i] == buffer[i + 1];
  }

  lemma ResendLeavesNoDeadChannel(cfg: Config, s: State, outcome: Outcome)
    requires Shaped(s) && NoDeadChannel(s) && Enabled(s, Resend(outcome))
    ensures NoDeadChannel(Apply(cfg, s, Resend(outcome)))
  {
    var inflight, c := s.conn.value.inflight, Counted(s.phase.rest[0], false);
    var phase := Apply(cfg, s, Resend(outcome)).phase;
    assert inflight == Behind(s) && s.phase.rest == Middle(s) && !c.channel;
    ListeningOn(inflight, s.phase, Idle);
    ListeningOn(inflight, s.phase, phase);
    WriteIsHeard(cfg, inflight, c, outcome, phase);
    PoppedIsMute(cfg, inflight, c, outcome, phase);
  }

  lemma DrainLeavesNoDeadChannel(cfg: Config, s: State)
    requires Shaped(s) && NoDeadChannel(s) && Enabled(s, Drain)
    ensures NoDeadChannel(Apply(cfg, s, Drain))
  {
    var s' := Apply(cfg, s, Drain);
    var inflight, popped := Behind(s), Middle(s);
    ListeningConcat(inflight, popped, s.phase);
    ListeningOn(inflight + popped, s.phase, Idle);
    assert s'.retry == inflight + popped;
    assert Behind(s') == inflight + popped && Middle(s') == [] && s'.phase == Idle;
  }

  lemma OthersLeaveNoDeadChannel(cfg: Config, s: State, step: Step)
    requires Shaped(s) && NoDeadChannel(s) && Enabled(s, step)
    requires step.Submit? || step.Close? || step.Connect? || step.EndReplay? || step.Stop?
    ensures NoDeadChannel(Apply(cfg, s, step))
  {
    if step.Connect? {
      assert s.retry == Behind(s) && Middle(Apply(cfg, s, step)) == s.retry;
    } else if !step.Stop? {
      assert Behind(Apply(cfg, s, step)) == Behind(s);
    }
  }

  lemma StepLeavesNoDeadChannel(cfg: Config, s: State, step: Step)
    requires Ordered(s) && NoDeadChannel(s) && Heard(s, step) && Enabled(s, step)
    ensures NoDeadChannel(Apply(cfg, s, step))
  {
    match step
    case WriteHand(_, _) => WriteLeavesNoDeadChannel(cfg, s, step);
    case Answer => AnswerLeavesNoDeadChannel(cfg, s);
    case ReaderStops => ShutdownLeavesNoDeadChannel(cfg, s);
    case Resend(outcome) => ResendLeavesNoDeadChannel(cfg, s, outcome);
    case Drain => DrainLeavesNoDeadChannel(cfg, s);
    case _ => OthersLeaveNoDeadChannel(cfg, s, step);
  }

  /** In every run in which each blocking write reaches the socket, a reader that stops discards no command: the loss needs a
    * blocking write that failed, and a replay of its command. */
  lemma {:induction false} HeardRunKeepsTheFront(cfg: Config, steps: seq<Step>)
    requires HeardRun(cfg, steps)
    ensures NoDeadChannel(Run(cfg, steps))
    ensures Dropped(cfg, Run(cfg, steps), ReaderStops) == {}
  {
    if steps != [] {
      var before, step := steps[..|steps| - 1], steps[|steps| - 1];
      var s := Run(cfg, before);
      HeardRunKeepsTheFront(cfg, before);
      EveryRunKeepsOrder(cfg, before);
      if Enabled(s, step) {
        StepLeavesNoDeadChannel(cfg, s, step);
      }
    }
    var s := Run(cfg, steps);
    if Enabled(s, ReaderStops) {
      assert Behind(s) == s.conn.value.inflight;
      ShutdownKeepsTheFrontIff(cfg, s);
    }
  }

  /** A blocking write fails, and its command waits for the next connection with its channel. */
  lemma BlockingWriteFails(cfg: Config) returns (steps: seq<Step>)
    requires cfg == Config(3, true)
    ensures Run(cfg, steps) == State(None, [Cmd(0, 1, true, false)], None, Idle, 1)
    ensures AllDropped(cfg, steps) == {}
  {
    var c := Cmd(0, 1, true, false);
    steps := FirstConnected(cfg);
    RunOneMore(cfg, steps, Submit(0, false));
    steps := steps + [Submit(0, false)];
    RunOneMore(cfg, steps, WriteHand(true, Broken));
    steps := steps + [WriteHand(true, Broken)];
    assert Run(cfg, steps) == State(Some(Conn([], true)), [], None, Closing([c]), 1);
    RunOneMore(cfg, steps, ReaderStops);
    steps := steps + [ReaderStops];
    assert Run(cfg, steps) == State(Some(Conn([], false)), [], None, Closing([c]), 1);
    RunOneMore(cfg, steps, Drain);
    steps := steps + [Drain];
    assert [] + [] + [c] == [c];
  }

  /** The only command to replay is written. */
  lemma ResentAlone(cfg: Config, s: State, c: Cmd)
    requires s.conn == Some(Conn([], true)) && s.phase == Replaying([c]) && !c.silent && !Spent(cfg, Counted(c, false))
    ensures Apply(cfg, s, Resend(Delivered)) == s.(conn := Some(Conn([Counted(c, false)], true)), phase := Replaying([]))
    ensures Dropped(cfg, s, Resend(Delivered)) == {}
  {
    assert [c][1..] == [] && [] + [Counted(c, false)] == [Counted(c, false)];
  }

  lemma ReplayedWithChannel(cfg: Config) returns (steps: seq<Step>)
    requires cfg == Config(3, true)
    ensures Run(cfg, steps) == State(Some(Conn([Cmd(0, 2, true, false)], true)), [], None, Idle, 1)
    ensures AllDropped(cfg, steps) == {}
  {
    var c, again := Cmd(0, 1, true, false), Cmd(0, 2, true, false);
    steps := BlockingWriteFails(cfg);
    RunOneMore(cfg, steps, Connect);
    steps := steps + [Connect];
    var s := State(Some(Conn([], true)), [], None, Replaying([c]), 1);
    assert Run(cfg, steps) == s;
    ResentAlone(cfg, s, c);
    RunOneMore(cfg, steps, Resend(Delivered));
    steps := steps + [Resend(Delivered)];
    assert Run(cfg, steps) == State(Some(Conn([again], true)), [], None, Replaying([]), 1);
    RunOneMore(cfg, steps, EndReplay);
    steps := steps + [EndReplay];
  }

  /** The failing case: the command is replayed with its dead channel, and discarded when the reader stops. */
  lemma ShutdownCanLoseACommand() returns (steps: seq<Step>)
    ensures var s := Run(Config(3, true), steps);
            s.next == 1 && s.conn == Some(Conn([], false)) && s.retry == [] && s.hand == None && s.phase == Idle
    ensures AllDropped(Config(3, true), steps) == {0}
  {
    steps := ReplayedWithChannel(Config(3, true));
    assert [Cmd(0, 2, true, false)][1..] == [];
    RunOneMore(Config(3, true), steps, ReaderStops);
    steps := steps + [ReaderStops];
  }

  // ---- The router ----

  /** The steps one after the other. */
  function After(cfg: Config, s: State, steps: seq<Step>): State {
    if steps == [] then s else Apply(cfg, After(cfg, s, steps[..|steps| - 1]), steps[|steps| - 1])
  }

  lemma AfterOneMore(cfg: Config, s: State, steps: seq<Step>, step: Step)
    ensures After(cfg, s, steps + [step]) == Apply(cfg, After(cfg, s, steps), step)
  {
    assert (steps + [step])[..|steps|] == steps;
  }

  /** The outcomes of the resends in a trace. */
  function Resends(steps: seq<Step>): seq<Outcome> {
    if steps == [] then []
    else
      var last := steps[|steps| - 1];
      Resends(steps[..|steps| - 1]) + if last.Resend? then [last.outcome] else []
  }

  lemma ResendsOneMore(steps: seq<Step>, step: Step)
    ensures Resends(steps + [step]) == Resends(steps) + if step.Resend? then [step.outcome] else []
  {
    assert (steps + [step])[..|steps|] == steps;
  }

  /** The connection after its reader answers up to `n` more commands. */
  function Answering(conn: Conn, n: nat): Conn {
    if !conn.working then conn
    else if n <= |conn.inflight| then conn.(inflight := conn.inflight[n..])
    else conn.(inflight := [])
  }

  /** The connection after its reader stops. */
  function Stopped(cfg: Config, conn: Conn): Conn {
    if conn.working then Conn(Shut(cfg, conn.inflight), false) else conn
  }

  lemma {:induction false} AnswersTrace(cfg: Config, start: State, trace: seq<Step>, n: nat) returns (more: seq<Step>)
    requires After(cfg, start, trace).conn.Some? && !After(cfg, start, trace).phase.Waiting?
    ensures var s := After(cfg, start, trace);
            After(cfg, start, more) == s.(conn := Some(Answering(s.conn.value, n)))
    ensures trace <= more && Resends(more) == Resends(trace)
  {
    more := trace;
    if n > 0 {
      more := AnswersTrace(cfg, start, trace, n - 1);
      AfterOneMore(cfg, start, more, Answer);
      ResendsOneMore(more, Answer);
      AnswerOneMore(cfg, After(cfg, start, trace), n - 1);
      more := more + [Answer];
    }
  }

  lemma AnswerOneMore(cfg: Config, s: State, n: nat)
    requires s.conn.Some? && !s.phase.Waiting?
    ensures Apply(cfg, s.(conn := Some(Answering(s.conn.value, n))), Answer) == s.(conn := Some(Answering(s.conn.value, n + 1)))
  {
    var conn := s.conn.value;
    if conn.working && n < |conn.inflight| {
      assert conn.inflight[n..][1..] == conn.inflight[n + 1..];
    }
  }

  lemma StopTrace(cfg: Config, start: State, trace: seq<Step>) returns (more: seq<Step>)
    requires After(cfg, start, trace).conn.Some? && !After(cfg, start, trace).phase.Waiting?
    ensures var s := After(cfg, start, trace);
            After(cfg, start, more) == s.(conn := Some(Stopped(cfg, s.conn.value)))
    ensures trace <= more && Resends(more) == Resends(trace)
  {
    AfterOneMore(cfg, start, trace, ReaderStops);
    ResendsOneMore(trace, ReaderStops);
    more := trace + [ReaderStops];
  }

  lemma DrainTrace(cfg: Config, start: State, trace: seq<Step>) returns (more: seq<Step>)
    requires var s := After(cfg, start, trace); s.conn.Some? && !s.conn.value.working && s.phase.Closing?
    ensures var s := After(cfg, start, trace);
            After(cfg, start, more) == State(None, s.retry + s.conn.value.inflight + s.phase.popped, s.hand, Idle, s.next)
    ensures trace <= more && Resends(more) == Resends(trace)
  {
    AfterOneMore(cfg, start, trace, Drain);
    ResendsOneMore(trace, Drain);
    more := trace + [Drain];
  }

  /** The reader answers up to `answers` more commands and stops, and what it leaves is saved before the popped command. */
  lemma CloseTrace(cfg: Config, start: State, trace: seq<Step>, answers: nat) returns (more: seq<Step>)
    requires var s := After(cfg, start, trace); s.conn.Some? && s.phase.Closing?
    ensures var s := After(cfg, start, trace);
            After(cfg, start, more) ==
            State(None, s.retry + Stopped(cfg, Answering(s.conn.value, answers)).inflight + s.phase.popped, s.hand, Idle, s.next)
    ensures trace <= more && Resends(more) == Resends(trace)
  {
    more := AnswersTrace(cfg, start, trace, answers);
    more := StopTrace(cfg, start, more);
    more := DrainTrace(cfg, start, more);
  }

  /** What happens around one resend: the reader answers some commands before it and may stop, and the write has an outcome. */
  datatype Act = Act(answers: nat, stops: bool, outcome: Outcome)

  class Router {
    const cfg: Config
    var writer: Option<Conn>
    var buffer: seq<Cmd>

    constructor (cfg: Config)
      ensures this.cfg == cfg && writer == None && buffer == []
    {
      this.cfg, writer, buffer := cfg, None, [];
    }

    /** This router as a state of the protocol. */
    ghost function Abs(hand: Option<Cmd>, phase: Phase, next: nat): State
      reads this
    {
      State(writer, buffer, hand, phase, next)
    }

    method BufferCommand(c: Cmd)
      modifies this`buffer
      ensures buffer == old(buffer) + [c]
    {
      buffer := buffer + [c];
    }

    method BufferCommands(commands: seq<Cmd>)
      modifies this`buffer
      ensures buffer == old(buffer) + commands
    {
      for i := 0 to |commands|
        invariant buffer == old(buffer) + commands[..i]
      {
        BufferCommand(commands[i]);
      }
    }

    /** `utils::write_command`: push, write, and pop again if the write failed. */
    method WriteCommand(c: Cmd, outcome: Outcome) returns (written: Written)
      requires writer.Some?
      modifies this`writer
      ensures var r := Write(cfg, old(writer).value.inflight, c, outcome);
              writer == Some(old(writer).value.(inflight := r.0)) && written == r.1
    {
      match outcome {
        case TimedOut => return Ignore;
        case Pressure => return Backpressure(c);
        case Unencodable => return Ignore;
        case _ =>
      }
      var deque := writer.value.inflight;
      if !c.silent {
        deque := deque + [c];
      }
      if outcome.Delivered? {
        writer := Some(writer.value.(inflight := deque));
        return Sent;
      }
      if deque == [] {
        return Ignore;
      }
      var popped := deque[|deque| - 1];
      deque := deque[..|deque| - 1];
      writer := Some(writer.value.(inflight := deque));
      written := Disconnect(popped, SendsWriteError(cfg, popped));
    }

    /** The reader answers up to `answers` commands, and may stop. */
    method ReaderActs(answers: nat, stops: bool)
      requires writer.Some?
      modifies `writer
      ensures var conn := Answering(old(writer).value, answers);
              writer == Some(if stops then Stopped(cfg, conn) else conn)
    {
      var i := 0;
      while i < answers && writer.value.working && writer.value.inflight != []
        invariant i <= answers && writer == Some(Answering(old(writer).value, i))
      {
        writer := Some(writer.value.(inflight := writer.value.inflight[1..]));
        i := i + 1;
      }
      if stops && writer.value.working {
        var left := CheckFinalWriteAttempt(cfg, Unblocked(writer.value.inflight).1);
        writer := Some(Conn(left, false));
      }
    }

    /** `disconnect_all`: the reader answers up to `answers` more commands before it stops. */
    method DisconnectAll(answers: nat)
      modifies this
      ensures writer == None
      ensures buffer == old(buffer) + match old(writer)
                                      case None => []
                                      case Some(conn) => Stopped(cfg, Answering(conn, answers)).inflight
    {
      if writer.Some? {
        ReaderActs(answers, true);
        var deque := writer.value.inflight;
        writer := None;
        BufferCommands(deque);
      }
    }

    /** One command of the retry buffer. The write fails if the reader has stopped. */
    method Retry(command: Cmd, ghost rest: seq<Cmd>, outcome: Outcome, ghost next: nat) returns (written: Written)
      requires writer.Some? && !outcome.Pressure? && (outcome.Delivered? ==> writer.value.working)
      requires rest != [] && rest[0] == command
      modifies this`writer
      ensures writer.Some?
      ensures Abs(None, if written.Disconnect? then Closing(Saved(written)) else Replaying(rest[1..]), next) ==
              Apply(cfg, old(Abs(None, Replaying(rest), next)), Resend(outcome))
    {
      var c := Counted(command, false);
      written := Ignore;
      if !outcome.TimedOut? && !Spent(cfg, c) {
        written := WriteCommand(c, outcome);
      }
    }

    /** The failed command is buffered after the commands left in flight. */
    method GiveUp(failed: seq<Cmd>, answers: nat, ghost start: State, ghost trace: seq<Step>, ghost next: nat)
      returns (ghost more: seq<Step>)
      requires writer.Some? && Abs(None, Closing(failed), next) == After(cfg, start, trace)
      modifies this
      ensures writer == None
      ensures buffer == old(buffer) + Stopped(cfg, Answering(old(writer).value, answers)).inflight + failed
      ensures Abs(None, Idle, next) == After(cfg, start, more) && trace <= more && Resends(more) == Resends(trace)
    {
      more := CloseTrace(cfg, start, trace, answers);
      DisconnectAll(answers);
      BufferCommands(failed);
    }

    /** The reader acts, and then the next command is written. */
    method RetryNext(commands: seq<Cmd>, k: nat, act: Act, ghost start: State, ghost trace: seq<Step>, ghost next: nat)
      returns (written: Written, ghost more: seq<Step>)
      requires k < |commands| && writer.Some? && !act.outcome.Pressure?
      requires Abs(None, Replaying(commands[k..]), next) == After(cfg, start, trace)
      modifies `writer
      ensures writer.Some?
      ensures Abs(None, if written.Disconnect? then Closing(Saved(written)) else Replaying(commands[k + 1..]), next) ==
              After(cfg, start, more)
      ensures |Resends(more)| == |Resends(trace)| + 1 && Resends(trace) <= Resends(more)
      ensures Follows(Resends(more)[|Resends(trace)|], act.outcome)
    {
      more := AnswersTrace(cfg, start, trace, act.answers);
      if act.stops {
        more := StopTrace(cfg, start, more);
      }
      ReaderActs(act.answers, act.stops);
      var outcome := if act.outcome.Delivered? && !writer.value.working then Broken else act.outcome;
      AfterOneMore(cfg, start, more, Resend(outcome));
      ResendsOneMore(more, Resend(outcome));
      written := Retry(commands[k], commands[k..], outcome, next);
      assert commands[k..][1..] == commands[k + 1..];
      more := more + [Resend(outcome)];
    }

    /** `retry_buffer`, with the reader at work between the writes. It follows the steps of the protocol: the resends in
      * order, and the closing of the connection after a failed one. */
    method RetryBuffer(acts: nat -> Act, closing: nat, ghost next: nat) returns (visited: nat, ghost trace: seq<Step>)
      requires writer.Some? && forall k: nat :: !acts(k).outcome.Pressure?
      modifies this
      ensures visited <= |old(buffer)| && (writer.Some? ==> visited == |old(buffer)|)
      ensures |Resends(trace)| == visited && FollowsAll(Resends(trace), acts)
      ensures Abs(None, Idle, next) == After(cfg, State(old(writer), [], None, Replaying(old(buffer)), next), trace)
    {
      var commands := buffer;
      ghost var start := State(writer, [], None, Replaying(commands), next);
      buffer, visited, trace := [], 0, [];
      while visited < |commands|
        invariant visited <= |commands| && |Resends(trace)| == visited && buffer == [] && writer.Some?
        invariant FollowsAll(Resends(trace), acts)
        invariant Abs(None, Replaying(commands[visited..]), next) == After(cfg, start, trace)
      {
        var written;
        ghost var before := Resends(trace);
        written, trace := RetryNext(commands, visited, acts(visited), start, trace, next);
        FollowsOneMore(before, Resends(trace), acts);
        visited := visited + 1;
        if written.Disconnect? {
          trace := GiveUp(Saved(written), closing, start, trace, next);
          return;
        }
      }
      AfterOneMore(cfg, start, trace, EndReplay);
      ResendsOneMore(trace, EndReplay);
      trace := trace + [EndReplay];
    }
  }

  /** A write has the outcome the socket gives it, but fails if the reader has stopped (`is_working`). */
  predicate Follows(outcome: Outcome, given: Outcome) {
    outcome == given || (given.Delivered? && outcome.Broken?)
  }

  ghost predicate FollowsAll(outcomes: seq<Outcome>, acts: nat -> Act) {
    forall k: nat :: k < |outcomes| ==> Follows(outcomes[k], acts(k).outcome)
  }

  lemma FollowsOneMore(before: seq<Outcome>, after: seq<Outcome>, acts: nat -> Act)
    requires FollowsAll(before, acts) && before <= after && |after| == |before| + 1
    requires Follows(after[|before|], acts(|before|).outcome)
    ensures FollowsAll(after, acts)
  {
  }

  /** `check_final_write_attempt` */
  method CheckFinalWriteAttempt(cfg: Config, buffer: seq<Cmd>) returns (left: seq<Cmd>)
    ensures left == Survivors(cfg, buffer)
  {
    left := [];
    for i := 0 to |buffer|
      invariant left == Survivors(cfg, buffer[..i])
    {
      assert buffer[..i + 1][..i] == buffer[..i];
      if !OutOfAttempts(cfg, buffer[i]) {
        left := left + [buffer[i]];
      }
    }
    assert buffer[..|buffer|] == buffer;
  }
}
