/** The loops that write one command again and again: `write_with_backpressure`, and the loops that follow an ASK or a MOVED
  * redirection. What the connection, the server and the other tasks do in each pass is given by an environment. */
module WriteLoop {
  import opened Prelude

  datatype Policy = Drain | Sleep | Manual

  /** `max` is `max_command_attempts`, `limit` is `max_in_flight_commands`, and `reconnects` is whether a reconnect policy is
    * set. */
  datatype Config = Config(max: nat, limit: nat, policy: Policy, reconnects: bool)

  /** `pipelined` is the outcome of `should_auto_pipeline`, `channel` whether the command holds a sender to the router, and
    * `skip` is `skip_backpressure`. */
  datatype Command = Command(attempted: nat, pipelined: bool, channel: bool, skip: bool)

  datatype Backpressure = Wait | Block

  /** What the reader tasks send on the router channel. `recovered` is whether the reconnection or cluster sync that follows
    * works. */
  datatype Response =
    | Continue
    | ChannelDropped
    | Ask(recovered: bool)
    | Moved(recovered: bool)
    | ConnectionClosed(recovered: bool)
    | Unexpected

  datatype Link = Missing | MissingSlot | Failing | Working

  /** One pass as the environment decides it. */
  datatype Weather = Weather(
    interrupted: bool,
    timedOut: bool,
    inFlight: nat,
    encodable: bool,
    link: Link,
    response: Response)

  type Environment = nat -> Weather

  /** Where the loop leaves the command: answered, with the connection, on the retry buffer, or nowhere. */
  datatype Fate = Answered | InFlight | Buffered | Dropped

  datatype Pass = Again(c: Command, pressure: Option<Backpressure>, framed: bool) | Done(fate: Fate, framed: bool)

  /** `incr_check_attempted` after counting */
  predicate Spent(cfg: Config, c: Command) {
    cfg.max > 0 && c.attempted > cfg.max
  }

  /** `check_backpressure` for a command over the limit */
  function Pressed(cfg: Config, c: Command, w: Weather): bool {
    !c.skip && w.inFlight > cfg.limit
  }

  /** After the wait before a pass: the command, and whether the loop listens for a response. */
  datatype Turn = Interrupted | Ready(c: Command, listening: bool)

  function Waited(c: Command, pressure: Option<Backpressure>, w: Weather): Turn {
    if pressure == Some(Wait) && w.interrupted then Interrupted
    else if pressure == Some(Block) && !c.channel then Ready(c.(skip := true, channel := true), true)
    else Ready(c.(channel := c.channel || !c.pipelined), !c.pipelined)
  }

  /** `handle_router_response` for a command that was written. */
  function Respond(cfg: Config, c: Command, listening: bool, w: Weather): Pass {
    if !listening then Done(InFlight, true)
    else
      var back := c.(channel := false);
      match w.response
      case Continue => Done(InFlight, true)
      case ChannelDropped => Done(Dropped, true)
      case Ask(recovered) => if recovered then Again(back, None, true) else Done(Dropped, true)
      case Moved(recovered) => if recovered then Again(back, None, true) else Done(Dropped, true)
      case ConnectionClosed(recovered) =>
        if c.attempted >= cfg.max then Done(Answered, true)
        else if recovered then Again(back, None, true)
        else Done(Dropped, true)
      case Unexpected => Done(Dropped, true)
  }

  /** `Router::write_command` and what follows, for a command counted once more. Without a connection the command is buffered
    * and the error returned; unless the command is part of a pipeline, that ends the router task, which clears the buffer. */
  function Written(cfg: Config, c: Command, listening: bool, w: Weather): Pass {
    if Spent(cfg, c) then Done(Answered, false)
    else if w.link.Missing? || w.link.MissingSlot? then Done(Buffered, false)
    else if w.timedOut then Done(Answered, false)
    else if Pressed(cfg, c, w) then
      if cfg.policy.Manual? then Done(Answered, false)
      else Again(c, Some(if cfg.policy.Drain? then Block else Wait), false)
    else if !w.encodable then Done(Answered, false)
    else if w.link.Failing? then Done(if c.attempted >= cfg.max || !cfg.reconnects then Answered else Buffered, true)
    else Respond(cfg, c, listening, w)
  }

  /** One pass of `write_with_backpressure`. */
  function OnePass(cfg: Config, c: Command, pressure: Option<Backpressure>, w: Weather): Pass {
    match Waited(c, pressure, w)
    case Interrupted => Done(Answered, false)
    case Ready(ready, listening) => Written(cfg, ready.(attempted := ready.attempted + 1), listening, w)
  }

  // ---- Loops ----

  /** How far a loop got: its passes, the frames it wrote, and how it ended, if it did. */
  datatype Trace = Trace(passes: nat, frames: nat, fate: Option<Fate>)

  function Then(passes: nat, frames: nat, t: Trace): Trace {
    Trace(passes + t.passes, frames + t.frames, t.fate)
  }

  function Count(framed: bool): nat {
    if framed then 1 else 0
  }

  /** What one pass does with a command, its backpressure, and what the environment decides. */
  type Machine<-W> = (Command, Option<Backpressure>, W) -> Pass

  /** The first `rounds` passes of a loop, from question `from` on. */
  function Iterate<W>(step: Machine<W>, c: Command, pressure: Option<Backpressure>, env: nat -> W, from: nat, rounds: nat)
    : Trace
    decreases rounds
  {
    if rounds == 0 then Trace(0, 0, None)
    else match step(c, pressure, env(from))
      case Done(fate, framed) => Trace(1, Count(framed), Some(fate))
      case Again(c', pressure', framed) =>
        Then(1, Count(framed), Iterate(step, c', pressure', env, from + 1, rounds - 1))
  }

  /** The loop around one command. */
  method RunLoop<W>(step: Machine<W>, command: Command, env: nat -> W, rounds: nat) returns (trace: Trace)
    ensures trace == Iterate(step, command, None, env, 0, rounds)
  {
    var c, pressure: Option<Backpressure> := command, None;
    var passes: nat, frames: nat := 0, 0;
    while passes < rounds
      invariant passes <= rounds
      invariant Iterate(step, command, None, env, 0, rounds) ==
                Then(passes, frames, Iterate(step, c, pressure, env, passes, rounds - passes))
    {
      match step(c, pressure, env(passes)) {
        case Done(fate, framed) => return Trace(passes + 1, frames + Count(framed), Some(fate));
        case Again(c', pressure', framed) =>
          c, pressure, passes, frames := c', pressure', passes + 1, frames + Count(framed);
      }
    }
    trace := Trace(passes, frames, None);
  }

  // ---- Passes along a loop ----

  /** A command before a pass, with the backpressure it met last. */
  datatype Point = Point(c: Command, pressure: Option<Backpressure>)

  /** The command before pass `k`, if the loop gets there. */
  function At<W>(step: Machine<W>, c: Command, pressure: Option<Backpressure>, env: nat -> W, from: nat, k: nat): Option<Point>
    decreases k
  {
    if k == 0 then Some(Point(c, pressure))
    else match step(c, pressure, env(from))
      case Done(_, _) => None
      case Again(c', pressure', _) => At(step, c', pressure', env, from + 1, k - 1)
  }

  /** Each pass but the last goes on, and the last one gives the fate, if there is one. */
  lemma {:induction false} PassesAlong<W>(step: Machine<W>, c: Command, pressure: Option<Backpressure>, env: nat -> W, from: nat,
                                          rounds: nat, k: nat)
    requires k < Iterate(step, c, pressure, env, from, rounds).passes
    ensures var t, point := Iterate(step, c, pressure, env, from, rounds), At(step, c, pressure, env, from, k);
            && point.Some?
            && var p := step(point.value.c, point.value.pressure, env(from + k));
               if k + 1 < t.passes || t.fate == None then p.Again? else p == Done(t.fate.value, p.framed)
    decreases rounds
  {
    match step(c, pressure, env(from))
    case Done(_, _) =>
    case Again(c', pressure', _) =>
      if k > 0 {
        PassesAlong(step, c', pressure', env, from + 1, rounds - 1, k - 1);
      } else if rounds > 1 {
        GoesOn(step, c', pressure', env, from + 1, rounds - 1);
      }
  }

  lemma GoesOn<W>(step: Machine<W>, c: Command, pressure: Option<Backpressure>, env: nat -> W, from: nat, rounds: nat)
    requires rounds > 0
    ensures Iterate(step, c, pressure, env, from, rounds).passes > 0
  {
  }

  /** The writes a command has left. */
  function Left(max: nat, attempted: nat): nat {
    if attempted < max then max - attempted else 0
  }

  /** At most one pass more than the command has writes left, at most that many frames, and the end within as many rounds. */
  predicate Within(left: nat, rounds: nat, t: Trace) {
    t.passes <= left + 1 && t.frames <= left && (rounds > left ==> t.fate.Some?)
  }

  /** A pass that is not the last one uses up an attempt, and a frame is written only while attempts are left. */
  predicate Uses(max: nat, c: Command, p: Pass) {
    && (p.Again? ==> p.c.attempted == c.attempted + 1 && (max > 0 ==> p.c.attempted <= max))
    && (p.framed && max > 0 ==> c.attempted < max)
  }

  ghost predicate Counting<W(!new)>(max: nat, step: Machine<W>) {
    forall c, pressure, w :: Uses(max, c, step(c, pressure, w))
  }

  /** Any loop that counts its attempts ends, with a limit on them. */
  lemma {:induction false} CountingBoundsTheLoop<W(!new)>(max: nat, step: Machine<W>, c: Command, pressure: Option<Backpressure>,
                                                    env: nat -> W, from: nat, rounds: nat)
    requires max > 0 && Counting(max, step)
    ensures Within(Left(max, c.attempted), rounds, Iterate(step, c, pressure, env, from, rounds))
    decreases rounds
  {
    assert Uses(max, c, step(c, pressure, env(from)));
    if rounds > 0 {
      match step(c, pressure, env(from))
      case Done(_, _) =>
      case Again(c', pressure', _) => CountingBoundsTheLoop(max, step, c', pressure', env, from + 1, rounds - 1);
    }
  }

  // ---- The write loop ----

  function Writer(cfg: Config): Machine<Weather> {
    (c, pressure, w) => OnePass(cfg, c, pressure, w)
  }

  lemma PassUses(cfg: Config, c: Command, pressure: Option<Backpressure>, w: Weather)
    ensures Uses(cfg.max, c, OnePass(cfg, c, pressure, w))
  {
  }

  lemma WriterCounts(cfg: Config)
    ensures Counting(cfg.max, Writer(cfg))
  {
    forall c, pressure, w
      ensures Uses(cfg.max, c, Writer(cfg)(c, pressure, w))
    {
      PassUses(cfg, c, pressure, w);
    }
  }

  /** With a limit on attempts, through any mix of backpressure, redirections and closed connections, the write loop ends after
    * at most one pass more than the command has writes left, and writes the frame at most that many times. */
  lemma AttemptsBoundTheLoop(cfg: Config, c: Command, env: Environment, rounds: nat)
    requires cfg.max > 0
    ensures Within(Left(cfg.max, c.attempted), rounds, Iterate(Writer(cfg), c, None, env, 0, rounds))
  {
    WriterCounts(cfg);
    CountingBoundsTheLoop(cfg.max, Writer(cfg), c, None, env, 0, rounds);
  }

  /** `write_with_backpressure` */
  method WriteWithBackpressure(cfg: Config, command: Command, env: Environment, rounds: nat) returns (trace: Trace)
    ensures trace == Iterate(Writer(cfg), command, None, env, 0, rounds)
    ensures cfg.max > 0 ==> Within(Left(cfg.max, command.attempted), rounds, trace)
  {
    trace := RunLoop(Writer(cfg), command, env, rounds);
    if cfg.max > 0 {
      AttemptsBoundTheLoop(cfg, command, env, rounds);
    }
  }

  /** What the last pass must have met for the command to end up where it did. A command is left nowhere only if it was
    * written and its channel was dropped or the recovery failed. */
  predicate Causes(cfg: Config, attempts: nat, w: Weather, fate: Fate) {
    match fate
    case Dropped =>
      && w.link.Working?
      && (match w.response
          case Continue => false
          case ChannelDropped => true
          case Unexpected => true
          case Ask(recovered) => !recovered
          case Moved(recovered) => !recovered
          case ConnectionClosed(recovered) => !recovered && attempts < cfg.max)
    case Buffered => !w.link.Working? && (w.link.Failing? ==> attempts < cfg.max && cfg.reconnects)
    case InFlight => w.link.Working? && !w.timedOut && w.encodable
    case Answered =>
      || w.timedOut || w.interrupted || !w.encodable || attempts >= cfg.max
      || (w.link.Failing? && !cfg.reconnects)
      || (w.inFlight > cfg.limit && cfg.policy.Manual?)
  }

  lemma EndOfOnePass(cfg: Config, c: Command, pressure: Option<Backpressure>, w: Weather)
    ensures var p := OnePass(cfg, c, pressure, w);
            p.Done? ==> Causes(cfg, c.attempted + 1, w, p.fate)
  {
  }

  /** Every pass that ends the loop has its cause. */
  ghost predicate Causal(cfg: Config, step: Machine<Weather>) {
    forall c, pressure, w :: step(c, pressure, w).Done? ==> Causes(cfg, c.attempted + 1, w, step(c, pressure, w).fate)
  }

  lemma {:induction false} EndHasItsCause(cfg: Config, step: Machine<Weather>, c: Command, pressure: Option<Backpressure>,
                                          env: Environment, from: nat, rounds: nat)
    requires Counting(cfg.max, step) && Causal(cfg, step)
    ensures var t := Iterate(step, c, pressure, env, from, rounds);
            t.fate.Some? ==> t.passes > 0 && Causes(cfg, c.attempted + t.passes, env(from + t.passes - 1), t.fate.value)
    decreases rounds
  {
    assert Uses(cfg.max, c, step(c, pressure, env(from)));
    if rounds > 0 {
      match step(c, pressure, env(from))
      case Done(_, _) =>
      case Again(c', pressure', _) => EndHasItsCause(cfg, step, c', pressure', env, from + 1, rounds - 1);
    }
  }

  /** Every end of the write loop has its cause in the last pass, which is attempt number `c.attempted` plus the passes made. */
  lemma EveryEndHasItsCause(cfg: Config, c: Command, env: Environment, rounds: nat)
    ensures var t := Iterate(Writer(cfg), c, None, env, 0, rounds);
            t.fate.Some? ==> t.passes > 0 && Causes(cfg, c.attempted + t.passes, env(t.passes - 1), t.fate.value)
  {
    forall c, pressure, w
      ensures Writer(cfg)(c, pressure, w).Done? ==> Causes(cfg, c.attempted + 1, w, Writer(cfg)(c, pressure, w).fate)
    {
      EndOfOnePass(cfg, c, pressure, w);
    }
    WriterCounts(cfg);
    EndHasItsCause(cfg, Writer(cfg), c, None, env, 0, rounds);
  }

  // ---- The cause of every pass ----

  /** The command has an attempt left and was not interrupted in its sleep. */
  predicate Starts(cfg: Config, at: Point, w: Weather) {
    (cfg.max == 0 || at.c.attempted < cfg.max) && !(at.pressure == Some(Wait) && w.interrupted)
  }

  predicate Linked(w: Weather) {
    w.link.Failing? || w.link.Working?
  }

  /** The pass comes after the one wait of a command under the Drain policy. */
  predicate WaitedOnce(at: Point) {
    at.pressure == Some(Block) && !at.c.channel
  }

  /** The loop waits for the reply to this pass. */
  predicate Listens(at: Point) {
    WaitedOnce(at) || !at.c.pipelined
  }

  /** The command heeds backpressure, and the connection is over its limit. */
  predicate Meets(cfg: Config, at: Point, w: Weather) {
    !at.c.skip && !WaitedOnce(at) && w.inFlight > cfg.limit
  }

  /** The pass hands the frame to a socket. */
  predicate Sends(cfg: Config, at: Point, w: Weather) {
    Starts(cfg, at, w) && Linked(w) && !w.timedOut && !Meets(cfg, at, w) && w.encodable
  }

  /** The pass is held back, and the loop tries again. */
  predicate HeldBack(cfg: Config, at: Point, w: Weather) {
    Starts(cfg, at, w) && Linked(w) && !w.timedOut && Meets(cfg, at, w) && !cfg.policy.Manual?
  }

  /** The command was redirected or its connection closed, and the repair worked. A closed connection counts only while there
    * are attempts left after this one. */
  predicate Recovers(cfg: Config, at: Point, w: Weather) {
    match w.response
    case Ask(recovered) => recovered
    case Moved(recovered) => recovered
    case ConnectionClosed(recovered) => recovered && at.c.attempted + 1 < cfg.max
    case _ => false
  }

  /** The frame is written, and the loop tries again. */
  predicate SentBack(cfg: Config, at: Point, w: Weather) {
    Sends(cfg, at, w) && w.link.Working? && Listens(at) && Recovers(cfg, at, w)
  }

  /** The socket failed, and the command can be kept for later. */
  predicate Keeps(cfg: Config, at: Point, w: Weather) {
    w.link.Failing? && at.c.attempted + 1 < cfg.max && cfg.reconnects
  }

  /** Where a pass that is the last one leaves the command. */
  predicate Leaves(cfg: Config, at: Point, w: Weather, fate: Fate) {
    match fate
    case InFlight => Sends(cfg, at, w) && w.link.Working? && (!Listens(at) || w.response.Continue?)
    case Dropped =>
      && Sends(cfg, at, w) && w.link.Working? && Listens(at) && !w.response.Continue? && !Recovers(cfg, at, w)
      && (w.response.ConnectionClosed? ==> at.c.attempted + 1 < cfg.max)
    case Buffered => Starts(cfg, at, w) && (!Linked(w) || (Sends(cfg, at, w) && Keeps(cfg, at, w)))
    case Answered =>
      || !Starts(cfg, at, w)
      || (Linked(w) && w.timedOut)
      || (Linked(w) && Meets(cfg, at, w) && cfg.policy.Manual?)
      || (Linked(w) && !Meets(cfg, at, w) && !w.encodable)
      || (Sends(cfg, at, w) && w.link.Failing? && !Keeps(cfg, at, w))
      || (Sends(cfg, at, w) && w.link.Working? && Listens(at) && w.response.ConnectionClosed? && at.c.attempted + 1 >= cfg.max)
  }

  /** The command after a pass that is not the last one: after a wait it skips backpressure, and its channel is gone once it was
    * used. */
  function After(at: Point, cfg: Config, framed: bool): Point {
    Point(at.c.(attempted := at.c.attempted + 1, skip := at.c.skip || WaitedOnce(at),
                channel := !framed && (at.c.channel || Listens(at))),
          if framed then None else Some(if cfg.policy.Drain? then Block else Wait))
  }

  /** Exactly what a pass does, by what it meets. */
  ghost predicate Explained(cfg: Config, at: Point, w: Weather, p: Pass) {
    && (p.framed <==> Sends(cfg, at, w))
    && (p.Again? && !p.framed <==> HeldBack(cfg, at, w))
    && (p.Again? && p.framed <==> SentBack(cfg, at, w))
    && (p.Again? ==> Point(p.c, p.pressure) == After(at, cfg, p.framed))
    && (p.Done? ==> forall fate :: p.fate == fate <==> Leaves(cfg, at, w, fate))
  }

  lemma PassIsExplained(cfg: Config, at: Point, w: Weather)
    ensures Explained(cfg, at, w, OnePass(cfg, at.c, at.pressure, w))
  {
    if Starts(cfg, at, w) {
      StartedPassIsExplained(cfg, at, w);
    }
  }

  lemma StartedPassIsExplained(cfg: Config, at: Point, w: Weather)
    requires Starts(cfg, at, w)
    ensures Explained(cfg, at, w, OnePass(cfg, at.c, at.pressure, w))
  {
  }

  /** The cause of every repetition and of the end: pass `k` of the loop wrote the frame, was followed by another pass, or left
    * the command where it did, exactly if it met what demands that. */
  lemma EveryPassHasItsCause(cfg: Config, c: Command, env: Environment, rounds: nat, k: nat)
    requires k < Iterate(Writer(cfg), c, None, env, 0, rounds).passes
    ensures var t, at := Iterate(Writer(cfg), c, None, env, 0, rounds), At(Writer(cfg), c, None, env, 0, k);
            && at.Some?
            && (k + 1 < t.passes || t.fate == None <==> HeldBack(cfg, at.value, env(k)) || SentBack(cfg, at.value, env(k)))
            && (k + 1 == t.passes && t.fate.Some? ==> Leaves(cfg, at.value, env(k), t.fate.value))
  {
    PassesAlong(Writer(cfg), c, None, env, 0, rounds, k);
    var at := At(Writer(cfg), c, None, env, 0, k).value;
    PassIsExplained(cfg, at, env(k));
  }

  /** A command that waits for its reply, on a healthy connection that answers it, is written once. */
  lemma AcknowledgedOnce(cfg: Config, c: Command, env: Environment, rounds: nat)
    requires rounds > 0 && (cfg.max == 0 || c.attempted < cfg.max) && (c.skip || env(0).inFlight <= cfg.limit)
    requires env(0).link.Working? && !env(0).timedOut && env(0).encodable && (c.pipelined || env(0).response.Continue?)
    ensures Iterate(Writer(cfg), c, None, env, 0, rounds) == Trace(1, 1, Some(InFlight))
  {
    PassIsExplained(cfg, Point(c, None), env(0));
    assert Leaves(cfg, Point(c, None), env(0), InFlight);
  }

  // ---- A command that is redirected every time ----

  /** A cluster that always answers MOVED. */
  const MOVING: Weather := Weather(false, false, 0, true, Working, Moved(true))

  function Next(c: Command): Command {
    c.(attempted := c.attempted + 1, channel := false)
  }

  /** A command that is not pipelined is written in every pass, as long as it has attempts left. */
  ghost predicate Moves(max: nat, step: Machine<Weather>) {
    forall c: Command :: !c.pipelined ==>
      step(c, None, MOVING) == if max > 0 && c.attempted >= max then Done(Answered, false) else Again(Next(c), None, true)
  }

  lemma WriterMoves(cfg: Config)
    ensures Moves(cfg.max, Writer(cfg))
  {
    forall c: Command | !c.pipelined
      ensures Writer(cfg)(c, None, MOVING) ==
              if cfg.max > 0 && c.attempted >= cfg.max then Done(Answered, false) else Again(Next(c), None, true)
    {
      MovingPass(cfg, c);
    }
  }

  lemma MovingPass(cfg: Config, c: Command)
    requires !c.pipelined
    ensures OnePass(cfg, c, None, MOVING) ==
            if cfg.max > 0 && c.attempted >= cfg.max then Done(Answered, false) else Again(Next(c), None, true)
  {
  }

  lemma {:induction false} MovesUseEveryAttempt(max: nat, step: Machine<Weather>, c: Command, env: Environment, from: nat,
                                                rounds: nat)
    requires Moves(max, step) && !c.pipelined && forall k: nat :: env(k) == MOVING
    requires max > 0 && c.attempted <= max && rounds > max - c.attempted
    ensures Iterate(step, c, None, env, from, rounds) == Trace(max - c.attempted + 1, max - c.attempted, Some(Answered))
    decreases rounds
  {
    assert env(from) == MOVING;
    if c.attempted < max {
      assert step(c, None, env(from)) == Again(Next(c), None, true);
      MovesUseEveryAttempt(max, step, Next(c), env, from + 1, rounds - 1);
      OneMoreMove(max - c.attempted, step, c, env, from, rounds);
    } else {
      assert step(c, None, env(from)) == Done(Answered, false);
    }
  }

  lemma OneMoreMove(left: nat, step: Machine<Weather>, c: Command, env: Environment, from: nat, rounds: nat)
    requires rounds > 0 && left > 0 && step(c, None, env(from)) == Again(Next(c), None, true)
    requires Iterate(step, Next(c), None, env, from + 1, rounds - 1) == Trace(left, left - 1, Some(Answered))
    ensures Iterate(step, c, None, env, from, rounds) == Trace(left + 1, left, Some(Answered))
  {
  }

  /** The bound is reached: a command that is redirected every time is written until no attempts are left, and then answered
    * with an error. */
  lemma RedirectsUseEveryAttempt(cfg: Config, c: Command, env: Environment, rounds: nat)
    requires cfg.max > 0 && !c.pipelined && c.attempted <= cfg.max && rounds > cfg.max - c.attempted
    requires forall k: nat :: env(k) == MOVING
    ensures var left := cfg.max - c.attempted;
            Iterate(Writer(cfg), c, None, env, 0, rounds) == Trace(left + 1, left, Some(Answered))
  {
    WriterMoves(cfg);
    MovesUseEveryAttempt(cfg.max, Writer(cfg), c, env, 0, rounds);
  }

  lemma {:induction false} MovesForEver(step: Machine<Weather>, c: Command, env: Environment, from: nat, rounds: nat)
    requires Moves(0, step) && !c.pipelined && forall k: nat :: env(k) == MOVING
    ensures Iterate(step, c, None, env, from, rounds) == Trace(rounds, rounds, None)
    decreases rounds
  {
    if rounds > 0 {
      assert step(c, None, env(from)) == Again(Next(c), None, true);
      MovesForEver(step, Next(c), env, from + 1, rounds - 1);
    }
  }

  /** Without a limit nothing ends such a loop. */
  lemma NoLimitNoEnd(cfg: Config, c: Command, env: Environment, rounds: nat)
    requires cfg.max == 0 && !c.pipelined && forall k: nat :: env(k) == MOVING
    ensures Iterate(Writer(cfg), c, None, env, 0, rounds) == Trace(rounds, rounds, None)
  {
    WriterMoves(cfg);
    MovesForEver(Writer(cfg), c, env, 0, rounds);
  }

  // ---- The Drain policy on a crowded connection ----

  /** The connection stays over the in-flight limit. */
  ghost predicate Crowded(cfg: Config, env: Environment) {
    forall k: nat :: Crowds(cfg, env(k))
  }

  predicate Crowds(cfg: Config, w: Weather) {
    w.inFlight > cfg.limit && w.link.Working? && !w.timedOut
  }

  /** The command is not held by a wait: it has had none, or holds a router channel. */
  predicate Unheld(c: Command, pressure: Option<Backpressure>) {
    pressure == None || (pressure == Some(Block) && c.channel)
  }

  function Held(c: Command): Command {
    c.(attempted := c.attempted + 1, channel := c.channel || !c.pipelined)
  }

  /** A pass that meets backpressure. */
  lemma CrowdedPass(cfg: Config, c: Command, pressure: Option<Backpressure>, w: Weather)
    requires cfg.policy.Drain? && Crowds(cfg, w) && !c.skip && Unheld(c, pressure)
    ensures OnePass(cfg, c, pressure, w) ==
            if cfg.max > 0 && c.attempted >= cfg.max then Done(Answered, false) else Again(Held(c), Some(Block), false)
  {
  }

  /** A command that is not pipelined meets it in every pass. */
  ghost predicate Starves(cfg: Config, step: Machine<Weather>) {
    forall c: Command, pressure, w :: Crowds(cfg, w) && !c.skip && !c.pipelined && Unheld(c, pressure) ==>
      step(c, pressure, w) ==
      if cfg.max > 0 && c.attempted >= cfg.max then Done(Answered, false) else Again(Held(c), Some(Block), false)
  }

  lemma WriterStarves(cfg: Config)
    requires cfg.policy.Drain?
    ensures Starves(cfg, Writer(cfg))
  {
    forall c: Command, pressure, w | Crowds(cfg, w) && !c.skip && !c.pipelined && Unheld(c, pressure)
      ensures Writer(cfg)(c, pressure, w) ==
              if cfg.max > 0 && c.attempted >= cfg.max then Done(Answered, false) else Again(Held(c), Some(Block), false)
    {
      CrowdedPass(cfg, c, pressure, w);
    }
  }

  lemma {:induction false} StarvedLoop(cfg: Config, step: Machine<Weather>, c: Command, pressure: Option<Backpressure>,
                                       env: Environment, from: nat, rounds: nat)
    requires Starves(cfg, step) && Crowded(cfg, env) && !c.skip && !c.pipelined && Unheld(c, pressure)
    ensures var t := Iterate(step, c, pressure, env, from, rounds);
            && t.frames == 0
            && (cfg.max > 0 && c.attempted <= cfg.max && rounds > cfg.max - c.attempted ==>
                  t == Trace(cfg.max - c.attempted + 1, 0, Some(Answered)))
    decreases rounds
  {
    if rounds > 0 {
      assert Crowds(cfg, env(from));
      if !(cfg.max > 0 && c.attempted >= cfg.max) {
        assert step(c, pressure, env(from)) == Again(Held(c), Some(Block), false);
        StarvedLoop(cfg, step, Held(c), Some(Block), env, from + 1, rounds - 1);
      } else {
        assert step(c, pressure, env(from)) == Done(Answered, false);
      }
    }
  }

  /** Under the Drain policy a command that is not pipelined holds a router channel already, so the wait returns at once. If the
    * connection stays over its limit the command is never written, and with a limit on attempts it uses them all up. */
  lemma DrainStarvesUnpipelined(cfg: Config, c: Command, env: Environment, rounds: nat)
    requires cfg.policy.Drain? && Crowded(cfg, env) && !c.pipelined && !c.skip
    ensures var t := Iterate(Writer(cfg), c, None, env, 0, rounds);
            && t.frames == 0
            && (cfg.max > 0 && c.attempted <= cfg.max && rounds > cfg.max - c.attempted ==>
                  t == Trace(cfg.max - c.attempted + 1, 0, Some(Answered)))
  {
    WriterStarves(cfg);
    StarvedLoop(cfg, Writer(cfg), c, None, env, 0, rounds);
  }

  /** After its one wait a command is not held back again: it is written, or it ends without a write because its attempts are
    * used up or it cannot be encoded. */
  lemma DrainHoldsPipelinedOnce(cfg: Config, c: Command, w: Weather)
    requires w.link.Working? && !w.timedOut && c.pipelined && !c.channel
    ensures var p := OnePass(cfg, c, Some(Block), w);
            if (cfg.max > 0 && c.attempted >= cfg.max) || !w.encodable then p == Done(Answered, false) else p.framed
  {
  }

  /** The frames of a loop, by its first two passes. */
  lemma TwoPasses(step: Machine<Weather>, c: Command, env: Environment, rounds: nat)
    requires rounds >= 2
    ensures var t, p := Iterate(step, c, None, env, 0, rounds), step(c, None, env(0));
            && (p.Done? ==> t.frames == Count(p.framed))
            && (p.Again? ==>
                  var p' := step(p.c, p.pressure, env(1));
                  && (p'.Done? ==> t.frames == Count(p.framed) + Count(p'.framed))
                  && (p'.framed ==> t.frames > 0))
  {
    var p := step(c, None, env(0));
    if p.Again? {
      assert Iterate(step, c, None, env, 0, rounds) ==
             Then(1, Count(p.framed), Iterate(step, p.c, p.pressure, env, 1, rounds - 1));
    }
  }

  /** Under the Drain policy, on a connection that stays over its limit, a new command is written exactly if it is pipelined,
    * has an attempt left after the one its wait uses up, and can be encoded. */
  lemma DrainWritesIff(cfg: Config, c: Command, env: Environment, rounds: nat)
    requires cfg.policy.Drain? && Crowded(cfg, env) && !c.channel && !c.skip && rounds >= 2
    ensures Iterate(Writer(cfg), c, None, env, 0, rounds).frames > 0 <==>
            c.pipelined && (cfg.max == 0 || c.attempted + 2 <= cfg.max) && env(1).encodable
  {
    if !c.pipelined {
      DrainStarvesUnpipelined(cfg, c, env, rounds);
    } else {
      assert Crowds(cfg, env(0)) && Crowds(cfg, env(1));
      CrowdedPass(cfg, c, None, env(0));
      DrainHoldsPipelinedOnce(cfg, Held(c), env(1));
      TwoPasses(Writer(cfg), c, env, rounds);
    }
  }

  // ---- The redirection loops ----

  /** One pass of `process_ask` or `process_moved`: `recovered` is whether ASKING or the cluster sync worked, `found` whether
    * the target has a connection. */
  datatype Attempt = Attempt(recovered: bool, found: bool, encodable: bool, working: bool)

  function OneDirect(cfg: Config, before: Command, a: Attempt): Pass {
    var c := before.(attempted := before.attempted + 1);
    if !a.recovered then Done(Answered, false)
    else if Spent(cfg, c) then Done(Answered, false)
    else if !a.found then Again(c, None, false)
    else if !a.encodable then Done(Answered, false)
    else if a.working then Done(InFlight, true)
    else Again(c, None, true)
  }

  /** The redirected command is handed to a socket of the target. */
  predicate Reaches(cfg: Config, c: Command, a: Attempt) {
    a.recovered && (cfg.max == 0 || c.attempted < cfg.max) && a.found && a.encodable
  }

  /** The target could not be reached, and the loop tries again. */
  predicate TriesAgain(cfg: Config, c: Command, a: Attempt) {
    a.recovered && (cfg.max == 0 || c.attempted < cfg.max) && (!a.found || (a.encodable && !a.working))
  }

  /** Exactly what a pass does, by what it meets. A redirected command ends with the target, or its caller has an error. */
  ghost predicate DirectExplained(cfg: Config, c: Command, a: Attempt, p: Pass) {
    && (p.framed <==> Reaches(cfg, c, a))
    && (p.Again? <==> TriesAgain(cfg, c, a))
    && (p.Again? ==> p.c == c.(attempted := c.attempted + 1) && p.pressure == None)
    && (p.Done? ==> p.fate == if Reaches(cfg, c, a) then InFlight else Answered)
  }

  lemma DirectIsExplained(cfg: Config, c: Command, a: Attempt)
    ensures DirectExplained(cfg, c, a, OneDirect(cfg, c, a))
  {
  }

  /** The cause of every repetition and of the end of the redirection loops. */
  lemma EveryRedirectHasItsCause(cfg: Config, c: Command, env: nat -> Attempt, rounds: nat, k: nat)
    requires k < Iterate(Redirector(cfg), c, None, env, 0, rounds).passes
    ensures var t, at := Iterate(Redirector(cfg), c, None, env, 0, rounds), At(Redirector(cfg), c, None, env, 0, k);
            && at.Some?
            && (k + 1 < t.passes || t.fate == None <==> TriesAgain(cfg, at.value.c, env(k)))
            && (k + 1 == t.passes && t.fate.Some? ==>
                  t.fate.value == if Reaches(cfg, at.value.c, env(k)) then InFlight else Answered)
  {
    PassesAlong(Redirector(cfg), c, None, env, 0, rounds, k);
    DirectIsExplained(cfg, At(Redirector(cfg), c, None, env, 0, k).value.c, env(k));
  }

  function Redirector(cfg: Config): Machine<Attempt> {
    (c, _, a) => OneDirect(cfg, c, a)
  }

  lemma AttemptsBoundTheRedirects(cfg: Config, c: Command, env: nat -> Attempt, rounds: nat)
    requires cfg.max > 0
    ensures Within(Left(cfg.max, c.attempted), rounds, Iterate(Redirector(cfg), c, None, env, 0, rounds))
  {
    forall c, pressure, a
      ensures Uses(cfg.max, c, Redirector(cfg)(c, pressure, a))
    {
      assert Uses(cfg.max, c, OneDirect(cfg, c, a));
    }
    CountingBoundsTheLoop(cfg.max, Redirector(cfg), c, None, env, 0, rounds);
  }

  /** `process_ask` and `process_moved` */
  method FollowRedirect(cfg: Config, command: Command, env: nat -> Attempt, rounds: nat) returns (trace: Trace)
    ensures trace == Iterate(Redirector(cfg), command, None, env, 0, rounds)
    ensures cfg.max > 0 ==> Within(Left(cfg.max, command.attempted), rounds, trace)
  {
    trace := RunLoop(Redirector(cfg), command, env, rounds);
    if cfg.max > 0 {
      AttemptsBoundTheRedirects(cfg, command, env, rounds);
    }
  }
}
