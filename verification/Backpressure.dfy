/** What the Drain policy guarantees: a bound on the commands waiting for answers, and an empty connection whenever the
  * router is let go again. */
module Backpressure {
  import opened Prelude
  import opened Frames
  import opened Connection

  // ---- Order: commands finish in the order they were written ----

  /** The reader has a command in its hands whose caller is not answered. */
  predicate Waits(r: Reader) {
    Held(r) || r.Answering?
  }

  /** The commands without an answer, oldest first. */
  ghost function Pending(s: State): seq<Command> {
    (if Waits(s.reader) then [s.reader.c] else []) + s.buffer
  }

  ghost predicate InSendOrder(s: State) {
    forall i, j :: 0 <= i < j < |Pending(s)| ==> Pending(s)[i].id < Pending(s)[j].id
  }

  ghost predicate Unfinished(s: State) {
    && (forall i :: 0 <= i < |Pending(s)| ==> Pending(s)[i].id < s.next && Pending(s)[i].id !in s.answered)
    && (forall id :: id in s.answered ==> id < s.next)
  }

  /** The command in the router's hands is younger than everything that waits. */
  ghost predicate WriterIsLast(s: State) {
    match s.writer
    case Checking(c, _, _) => Youngest(s, c)
    case Writing(c, _) => Youngest(s, c)
    case Pushed(c, _) => Trailing(s, c)
    case Written(c, _) => Trailing(s, c)
    case Blocked(c) => Trailing(s, c)
    case _ => true
  }

  ghost predicate Youngest(s: State, c: Command) {
    && c.id < s.next
    && c.id !in s.answered
    && forall i :: 0 <= i < |Pending(s)| ==> Pending(s)[i].id < c.id
  }

  ghost predicate Trailing(s: State, c: Command) {
    && c.id < s.next
    && (HasNoResponses(c) ==> c.id in s.answered)
    && (!HasNoResponses(c) && Pending(s) == [] ==> c.id in s.answered)
    && (!HasNoResponses(c) && Pending(s) != [] ==> Same(c, Pending(s)[|Pending(s)| - 1]))
  }

  /** The same command, whatever its progress. */
  ghost predicate Same(c: Command, d: Command) {
    c.id == d.id && c.response == d.response && c.skips == d.skips
  }

  ghost predicate Ordered(s: State) {
    InSendOrder(s) && Unfinished(s) && WriterIsLast(s)
  }

  /** The waiting commands stay the same in every step but the ones that add or finish a command. */
  ghost predicate SameIds(s: State, s': State) {
    |Pending(s')| == |Pending(s)| && forall i :: 0 <= i < |Pending(s)| ==> Same(Pending(s)[i], Pending(s')[i])
  }

  /** The step answers the oldest command. */
  ghost predicate Ends(s: State, step: Step) {
    || (step.Finish? && s.reader.Answering?)
    || (step.Respond? && s.reader.Counted? && AfterFrame(s.reader.c, s.reader.frame).None? && !s.reader.c.response.Multiple?)
  }

  lemma SameIdsKeep(s: State, s': State)
    requires Ordered(s) && SameIds(s, s') && s'.answered == s.answered && s'.next == s.next && s'.writer == s.writer
    ensures Ordered(s')
  {
  }

  /** A caller is answered before the router is let go, or right after it. */
  ghost predicate Announced(s: State) {
    && (forall id :: id in s.released ==> id in s.answered || (s.reader.Answering? && s.reader.c.id == id))
    && (s.reader.Releasing? ==> s.reader.c.id in s.answered)
    && (s.reader.Answering? ==> s.reader.c.response.Multiple?)
  }

  lemma StepKeepsAnnounced(max: nat, s: State, step: Step)
    requires Announced(s)
    ensures Announced(Apply(max, s, step))
  {
  }

  lemma {:induction false} EveryRunAnnounces(max: nat, steps: seq<Step>)
    ensures Announced(Run(max, steps))
  {
    if steps != [] {
      var before := steps[..|steps| - 1];
      EveryRunAnnounces(max, before);
      StepKeepsAnnounced(max, Run(max, before), steps[|steps| - 1]);
    }
  }

  lemma TakingKeepsIds(max: nat, s: State, step: Step)
    requires Enabled(s, step) && (step.Receive? || step.Stray?)
    ensures SameIds(s, Apply(max, s, step))
  {
    var s' := Apply(max, s, step);
    assert s'.reader.Took? ==> s.buffer == [s'.reader.c] + s'.buffer;
    assert Pending(s') == Pending(s);
  }

  lemma HoldingKeepsIds(max: nat, s: State, step: Step)
    requires Enabled(s, step) && (step.CountRead? || step.CountRequeue? || step.Respond? || step.Finish?) && !Ends(s, step)
    ensures SameIds(s, Apply(max, s, step))
  {
  }

  lemma ReaderKeepsIds(max: nat, s: State, step: Step)
    requires Enabled(s, step) && !OfWriter(step)
    requires !Ends(s, step)
    ensures SameIds(s, Apply(max, s, step))
  {
    if step.Receive? || step.Stray? {
      TakingKeepsIds(max, s, step);
    } else {
      HoldingKeepsIds(max, s, step);
    }
  }

  /** The oldest command finishes. */
  ghost predicate Finishes(s: State, s': State) {
    && Pending(s) != [] && Pending(s') == Pending(s)[1..]
    && s'.answered == s.answered + {Pending(s)[0].id} && s'.next == s.next && s'.writer == s.writer
  }

  lemma FinishKeepsUnfinished(s: State, s': State)
    requires InSendOrder(s) && Unfinished(s) && Finishes(s, s')
    ensures InSendOrder(s') && Unfinished(s')
  {
    var p, p' := Pending(s), Pending(s');
    assert forall i :: 0 <= i < |p'| ==> p'[i] == p[i + 1];
    assert forall i :: 0 <= i < |p'| ==> p[0].id < p'[i].id;
  }

  lemma FinishKeepsYoungest(s: State, s': State, c: Command)
    requires Youngest(s, c) && Finishes(s, s')
    ensures Youngest(s', c)
  {
    assert forall i :: 0 <= i < |Pending(s')| ==> Pending(s')[i] == Pending(s)[i + 1];
    assert Pending(s)[0].id < c.id;
  }

  lemma FinishKeepsTrailing(s: State, s': State, c: Command)
    requires Trailing(s, c) && Finishes(s, s')
    ensures Trailing(s', c)
  {
    var p, p' := Pending(s), Pending(s');
    if p' != [] {
      assert p'[|p'| - 1] == p[|p| - 1];
    } else {
      assert p[|p| - 1] == p[0];
    }
  }

  lemma FinishKeepsWriterLast(s: State, s': State)
    requires WriterIsLast(s) && Finishes(s, s')
    ensures WriterIsLast(s')
  {
    match s.writer
    case Checking(c, _, _) => FinishKeepsYoungest(s, s', c);
    case Writing(c, _) => FinishKeepsYoungest(s, s', c);
    case Pushed(c, _) => FinishKeepsTrailing(s, s', c);
    case Written(c, _) => FinishKeepsTrailing(s, s', c);
    case Blocked(c) => FinishKeepsTrailing(s, s', c);
    case Idle =>
    case Broken(_) =>
  }

  lemma FinishKeepsOrder(s: State, s': State)
    requires Ordered(s) && Finishes(s, s')
    ensures Ordered(s')
  {
    FinishKeepsUnfinished(s, s');
    FinishKeepsWriterLast(s, s');
  }

  /** A youngest command joins. */
  lemma JoinKeepsOrder(s: State, s': State, c: Command)
    requires Ordered(s) && Youngest(s, c) && !HasNoResponses(c) && Pending(s') == Pending(s) + [c]
    requires s'.answered == s.answered && s'.next == s.next && s'.writer.Pushed? && s'.writer.c == c
    ensures Ordered(s')
  {
    assert forall i :: 0 <= i < |Pending(s)| ==> Pending(s')[i] == Pending(s)[i];
  }

  lemma EndsFinish(max: nat, s: State, step: Step)
    requires Enabled(s, step) && Ends(s, step)
    ensures Finishes(s, Apply(max, s, step))
  {
    assert Pending(Apply(max, s, step)) == Pending(s)[1..];
  }

  lemma PushKeepsOrder(max: nat, s: State)
    requires Ordered(s) && Enabled(s, Step.Push)
    ensures Ordered(Apply(max, s, Step.Push))
  {
    var s' := Apply(max, s, Step.Push);
    if HasNoResponses(s.writer.c) {
      assert Pending(s') == Pending(s);
    } else {
      assert Pending(s') == Pending(s) + [s.writer.c];
      JoinKeepsOrder(s, s', s.writer.c);
    }
  }

  lemma FailKeepsOrder(max: nat, s: State)
    requires Ordered(s) && Enabled(s, Fail)
    ensures Ordered(Apply(max, s, Fail))
  {
    var s' := Apply(max, s, Fail);
    assert Pending(s') <= Pending(s);
  }

  lemma SubmitKeepsOrder(max: nat, s: State, c: Command)
    requires Ordered(s) && Enabled(s, Submit(c))
    ensures Ordered(Apply(max, s, Submit(c)))
  {
    assert Pending(Apply(max, s, Submit(c))) == Pending(s);
  }

  lemma SamePendingKeeps(s: State, s': State)
    requires Ordered(s) && Pending(s') == Pending(s) && s'.answered == s.answered && s'.next == s.next
    requires WriterIsLast(s')
    ensures Ordered(s')
  {
  }

  lemma IdleWriterStaysLast(max: nat, s: State, step: Step)
    requires WriterIsLast(s) && Enabled(s, step)
    requires step.Check? || step.GiveUp? || step.Send? || step.CountWrite? || step.Wake?
    ensures var s' := Apply(max, s, step);
            Pending(s') == Pending(s) && s'.answered == s.answered && s'.next == s.next && WriterIsLast(s')
  {
  }

  lemma StepKeepsOrder(max: nat, s: State, step: Step)
    requires Ordered(s) && Announced(s) && Enabled(s, step)
    ensures Ordered(Apply(max, s, step))
  {
    match step
    case Push => PushKeepsOrder(max, s);
    case Fail => FailKeepsOrder(max, s);
    case Submit(c) => SubmitKeepsOrder(max, s, c);
    case Check | GiveUp | Send | CountWrite | Wake =>
      IdleWriterStaysLast(max, s, step);
      SamePendingKeeps(s, Apply(max, s, step));
    case _ => ReaderKeepsOrder(max, s, step);
  }

  lemma ReaderKeepsOrder(max: nat, s: State, step: Step)
    requires Ordered(s) && Announced(s) && Enabled(s, step) && !OfWriter(step)
    ensures Ordered(Apply(max, s, step))
  {
    var s' := Apply(max, s, step);
    if Ends(s, step) {
      EndsFinish(max, s, step);
      FinishKeepsOrder(s, s');
    } else {
      ReaderKeepsIds(max, s, step);
      ReaderAnswersNone(max, s, step);
      SameIdsKeep(s, s');
    }
  }

  lemma ReaderAnswersNone(max: nat, s: State, step: Step)
    requires Announced(s) && Enabled(s, step) && !OfWriter(step) && !Ends(s, step)
    ensures var s' := Apply(max, s, step); s'.answered == s.answered && s'.next == s.next && s'.writer == s.writer
  {
  }

  /** In every run, whatever the server sends, commands wait in sending order. */
  lemma {:induction false} EveryRunKeepsOrder(max: nat, steps: seq<Step>)
    ensures Ordered(Run(max, steps))
  {
    if steps != [] {
      EveryRunKeepsOrder(max, steps[..|steps| - 1]);
      EveryRunAnnounces(max, steps[..|steps| - 1]);
      var s := Run(max, steps[..|steps| - 1]);
      if Enabled(s, steps[|steps| - 1]) {
        StepKeepsOrder(max, s, steps[|steps| - 1]);
      }
    }
  }

  ghost function IdsOf(cs: seq<Command>): set<nat> {
    set c | c in cs :: c.id
  }

  /** No written command is forgotten: it is finished or still waits. */
  ghost predicate Accounted(s: State) {
    !s.writer.Broken? ==> IdsOf(s.sent) <= s.answered + IdsOf(Pending(s))
  }

  lemma IdsOfSnoc(cs: seq<Command>, c: Command)
    ensures IdsOf(cs + [c]) == IdsOf(cs) + {c.id}
  {
    assert c in cs + [c];
    forall d | d in cs
      ensures d in cs + [c]
    {
    }
  }

  lemma IdsOfCons(c: Command, cs: seq<Command>)
    ensures IdsOf([c] + cs) == {c.id} + IdsOf(cs)
  {
    assert c in [c] + cs;
    forall d | d in cs
      ensures d in [c] + cs
    {
    }
  }

  lemma SameIdsSameSet(s: State, s': State)
    requires SameIds(s, s')
    ensures IdsOf(Pending(s')) == IdsOf(Pending(s))
  {
    forall i | 0 <= i < |Pending(s)|
      ensures Pending(s)[i].id in IdsOf(Pending(s')) && Pending(s')[i].id in IdsOf(Pending(s))
    {
      assert Pending(s')[i] in Pending(s') && Pending(s)[i] in Pending(s);
    }
  }

  lemma StepKeepsAccount(max: nat, s: State, step: Step)
    requires Accounted(s) && Ordered(s) && Announced(s) && Enabled(s, step)
    ensures Accounted(Apply(max, s, step))
  {
    var s' := Apply(max, s, step);
    match step
    case Push =>
      IdsOfSnoc(Pending(s), s.writer.c);
      assert Pending(s') == if HasNoResponses(s.writer.c) then Pending(s) else Pending(s) + [s.writer.c];
    case Send => SendKeepsAccount(max, s);
    case Fail =>
    case Submit(_) | Check | GiveUp | CountWrite | Wake => assert Pending(s') == Pending(s);
    case _ => ReaderKeepsAccount(max, s, step);
  }

  lemma ReaderKeepsAccount(max: nat, s: State, step: Step)
    requires Accounted(s) && Announced(s) && Enabled(s, step) && !OfWriter(step)
    ensures Accounted(Apply(max, s, step))
  {
    var s' := Apply(max, s, step);
    if Ends(s, step) {
      EndsFinish(max, s, step);
      assert Pending(s) == [Pending(s)[0]] + Pending(s');
      IdsOfCons(Pending(s)[0], Pending(s'));
    } else {
      ReaderKeepsIds(max, s, step);
      ReaderAnswersNone(max, s, step);
      SameIdsSameSet(s, s');
    }
  }

  lemma SendKeepsAccount(max: nat, s: State)
    requires Accounted(s) && WriterIsLast(s) && Enabled(s, Send)
    ensures Accounted(Apply(max, s, Send))
  {
    var c := s.writer.c;
    IdsOfSnoc(s.sent, c);
    assert Pending(Apply(max, s, Send)) == Pending(s);
    if !HasNoResponses(c) && Pending(s) != [] {
      assert Pending(s)[|Pending(s)| - 1] in Pending(s);
    }
  }

  lemma {:induction false} EveryRunAccounts(max: nat, steps: seq<Step>)
    ensures Accounted(Run(max, steps))
  {
    if steps != [] {
      EveryRunAccounts(max, steps[..|steps| - 1]);
      EveryRunKeepsOrder(max, steps[..|steps| - 1]);
      EveryRunAnnounces(max, steps[..|steps| - 1]);
      var s := Run(max, steps[..|steps| - 1]);
      if Enabled(s, steps[|steps| - 1]) {
        StepKeepsAccount(max, s, steps[|steps| - 1]);
      }
    }
  }

  /** The router is let go only when nothing waits but the command it waited for. */
  lemma ReleasedMeansDrained(s: State)
    requires Ordered(s) && Announced(s) && Enabled(s, Wake) && !HasNoResponses(s.writer.c)
    ensures s.buffer == []
    ensures Pending(s) == [] || (s.reader.Answering? && Pending(s) == [s.reader.c] && Same(s.writer.c, s.reader.c))
  {
    var p := Pending(s);
    if p != [] {
      assert p[|p| - 1].id !in s.answered;
      assert s.reader.Answering? && p[0].id == p[|p| - 1].id;
    }
  }

  /** What was sent has been answered then, but for that command. */
  lemma DrainedMeansAnswered(s: State, k: nat)
    requires Accounted(s) && !s.writer.Broken? && k < |s.sent|
    requires Pending(s) == [] || (Carrying(s.writer) && s.reader.Answering? && s.writer.c.id == s.reader.c.id)
    requires s.buffer == []
    ensures s.sent[k].id in s.answered || (Carrying(s.writer) && s.sent[k].id == s.writer.c.id)
  {
    assert s.sent[k].id in IdsOf(s.sent);
  }

  /** In every run, when a command that blocks the router lets it go, nothing is left in flight and every command sent before
    * has been answered. So has the command itself, unless it has several replies: then its answer may follow. */
  lemma BlockingCommandDrains(max: nat, steps: seq<Step>)
    ensures var s := Run(max, steps);
            Enabled(s, Wake) && !HasNoResponses(s.writer.c) ==>
              && s.buffer == []
              && (forall k :: 0 <= k < |s.sent| ==> s.sent[k].id in s.answered || s.sent[k].id == s.writer.c.id)
              && (s.writer.c.id !in s.answered ==> s.reader.Answering? && s.reader.c.id == s.writer.c.id)
              && (!s.writer.c.response.Multiple? ==> s.writer.c.id in s.answered && !Waits(s.reader))
  {
    EveryRunKeepsOrder(max, steps);
    EveryRunAnnounces(max, steps);
    EveryRunAccounts(max, steps);
    Drains(Run(max, steps));
  }

  lemma Drains(s: State)
    requires Ordered(s) && Announced(s) && Accounted(s)
    ensures Enabled(s, Wake) && !HasNoResponses(s.writer.c) ==>
              && s.buffer == []
              && (forall k :: 0 <= k < |s.sent| ==> s.sent[k].id in s.answered || s.sent[k].id == s.writer.c.id)
              && (s.writer.c.id !in s.answered ==> s.reader.Answering? && s.reader.c.id == s.writer.c.id)
              && (!s.writer.c.response.Multiple? ==> s.writer.c.id in s.answered && !Waits(s.reader))
  {
    if Enabled(s, Wake) && !HasNoResponses(s.writer.c) {
      ReleasedMeansDrained(s);
      forall k | 0 <= k < |s.sent|
        ensures s.sent[k].id in s.answered || s.sent[k].id == s.writer.c.id
      {
        DrainedMeansAnswered(s, k);
      }
    }
  }

  /** A blocking subscription to one channel. */
  function Listen(): Command {
    Command(0, false, true, Multiple(1), 0, false, false, [Null])
  }

  /** It is written and counted, and the router waits for it. */
  lemma ListenBlocks(max: nat) returns (steps: seq<Step>)
    ensures AllowedRun(max, steps)
    ensures Run(max, steps) ==
            START.(buffer := [Listen()], inFlight := 1, writer := Blocked(Listen()), serving := [Listen()], sent := [Listen()],
                   next := 1)
  {
    steps := FirstWrite(max, Listen());
    RunOneMore(max, steps, CountWrite);
    steps := steps + [CountWrite];
  }

  /** The only command in flight takes its own first reply. */
  lemma AloneIsTaken(s: State, c: Command)
    requires s.reader == Ready && s.buffer == [c] && s.serving == [c] && c.received == 0 && c.replies != []
    requires TakeFront([c], c.replies[0]) == (Some(c), [])
    ensures Enabled(s, Receive)
    ensures Deliver(s) == s.(buffer := [], serving := Left(c), reader := Took(c, c.replies[0]),
                             log := s.log + [Delivery(c.id, c.id, c.replies[0])])
  {
    assert Left(c) + [c][1..] == Left(c);
  }

  /** Its reply is taken and counted down. */
  lemma ListenReplied(max: nat) returns (steps: seq<Step>)
    ensures AllowedRun(max, steps)
    ensures var s := Run(max, steps);
            s.reader == Counted(Listen(), Null) && s.writer == Blocked(Listen()) && s.answered == {} && s.buffer == []
  {
    steps := ListenBlocks(max);
    FrontIsTaken(Listen());
    AloneIsTaken(Run(max, steps), Listen());
    RunOneMore(max, steps, Receive);
    steps := steps + [Receive];
    assert Run(max, steps).reader == Took(Listen(), Null);
    RunOneMore(max, steps, CountRead);
    steps := steps + [CountRead];
  }

  /** The case left open: the router can go on before the caller of such a command has its answer. */
  lemma ReleasedBeforeAnswered(max: nat) returns (steps: seq<Step>)
    ensures AllowedRun(max, steps)
    ensures var s := Run(max, steps); Enabled(s, Wake) && s.writer.c == Listen() && s.answered == {}
  {
    steps := ListenReplied(max);
    RunOneMore(max, steps, Respond);
    steps := steps + [Respond];
  }

  // ---- Bound: how many commands can wait ----

  /** How many of the commands skip the check for backpressure, or heed it. */
  ghost function Tally(cs: seq<Command>, skips: bool): nat {
    if cs == [] then 0 else Tally(cs[..|cs| - 1], skips) + One(cs[|cs| - 1], skips)
  }

  function One(c: Command, skips: bool): nat {
    if c.skips == skips then 1 else 0
  }

  lemma {:induction false} TallyConcat(a: seq<Command>, b: seq<Command>, skips: bool)
    ensures Tally(a + b, skips) == Tally(a, skips) + Tally(b, skips)
  {
    if b == [] {
      assert a + b == a;
    } else {
      TallyConcat(a, b[..|b| - 1], skips);
      assert (a + b)[..|a + b| - 1] == a + b[..|b| - 1];
    }
  }

  lemma {:induction false} TallySame(a: seq<Command>, b: seq<Command>, skips: bool)
    requires |a| == |b| && forall i :: 0 <= i < |a| ==> Same(a[i], b[i])
    ensures Tally(a, skips) == Tally(b, skips)
  {
    if a != [] {
      assert Same(a[|a| - 1], b[|b| - 1]);
      TallySame(a[..|a| - 1], b[..|b| - 1], skips);
    }
  }

  lemma {:induction false} TallyAll(cs: seq<Command>)
    ensures Tally(cs, true) + Tally(cs, false) == |cs|
  {
    if cs != [] {
      TallyAll(cs[..|cs| - 1]);
    }
  }

  lemma TallyFront(cs: seq<Command>, skips: bool)
    requires cs != []
    ensures Tally(cs[1..], skips) <= Tally(cs, skips)
  {
    TallyConcat(cs[..1], cs[1..], skips);
    assert cs == cs[..1] + cs[1..];
  }

  lemma TallySnoc(cs: seq<Command>, c: Command, skips: bool)
    ensures Tally(cs + [c], skips) == Tally(cs, skips) + One(c, skips)
  {
    assert (cs + [c])[..|cs|] == cs;
  }

  /** What a command adds to the tally when it is pushed. */
  function Adds(c: Command, skips: bool): nat {
    if HasNoResponses(c) then 0 else One(c, skips)
  }

  /** How many commands that heed the check the router may find, by where it is. `slack` is by how much the counter can be
    * short. */
  function Limit(max: nat, slack: nat, w: Writer): nat {
    match w
    case Idle => max + slack + 1
    case Checking(_, _, _) => max + slack + 1
    case Writing(c, channel) => max + slack + Over(c, channel)
    case Pushed(c, channel) => max + slack + Over(c, channel) + Adds(c, false)
    case Written(c, channel) => max + slack + Over(c, channel) + Adds(c, false)
    case Blocked(c) => max + slack + 1 + Adds(c, false)
    case Broken(_) => max + slack + 2
  }

  /** The command may have passed the check with the limit exceeded. */
  function Over(c: Command, channel: bool): nat {
    if channel || c.skips then 1 else 0
  }

  /** A requeued command is on the deque until it is counted again, and a check is skipped on a router channel, or because the
    * command asks for it. */
  ghost predicate Tidy(s: State) {
    && (s.reader.Requeued? && !s.writer.Broken? ==> s.buffer != [])
    && (s.writer.Checking? && s.writer.skip ==> s.writer.channel || s.writer.c.skips)
  }

  lemma {:induction false} EveryRunIsTidy(max: nat, steps: seq<Step>)
    ensures Tidy(Run(max, steps))
  {
    if steps != [] {
      var before := steps[..|steps| - 1];
      EveryRunIsTidy(max, before);
      StepKeepsTidy(max, Run(max, before), steps[|steps| - 1]);
    }
  }

  lemma StepKeepsTidy(max: nat, s: State, step: Step)
    requires Tidy(s)
    ensures Tidy(Apply(max, s, step))
  {
  }

  /** No command has several replies. */
  ghost predicate Plain(steps: seq<Step>) {
    forall i :: 0 <= i < |steps| && steps[i].Submit? ==> !steps[i].c.response.Multiple?
  }

  /** Only single-reply commands are in this state. */
  ghost predicate PlainState(s: State) {
    && !s.reader.Requeued? && !s.reader.Answering?
    && (Held(s.reader) ==> !s.reader.c.response.Multiple?)
    && (Carrying(s.writer) ==> !s.writer.c.response.Multiple?)
    && (forall i :: 0 <= i < |s.buffer| ==> !s.buffer[i].response.Multiple?)
  }

  lemma WriterKeepsPlain(max: nat, s: State, step: Step)
    requires PlainState(s) && Enabled(s, step) && OfWriter(step) && (step.Submit? ==> !step.c.response.Multiple?)
    ensures PlainState(Apply(max, s, step))
  {
  }

  lemma ReaderKeepsPlain(max: nat, s: State, step: Step)
    requires PlainState(s) && Enabled(s, step) && !OfWriter(step)
    ensures PlainState(Apply(max, s, step))
  {
  }

  lemma {:induction false} EveryRunIsPlain(max: nat, steps: seq<Step>)
    requires Plain(steps)
    ensures PlainState(Run(max, steps))
  {
    if steps != [] {
      var before, step := steps[..|steps| - 1], steps[|steps| - 1];
      EveryRunIsPlain(max, before);
      var s := Run(max, before);
      if Enabled(s, step) {
        if OfWriter(step) {
          WriterKeepsPlain(max, s, step);
        } else {
          ReaderKeepsPlain(max, s, step);
        }
      }
    }
  }

  // ---- What each step does to the tallies ----

  lemma PushTallies(max: nat, s: State, skips: bool)
    requires Enabled(s, Step.Push)
    ensures var s' := Apply(max, s, Step.Push);
            && Tally(Pending(s'), skips) == Tally(Pending(s), skips) + Adds(s.writer.c, skips)
            && Tally(s'.buffer, skips) == Tally(s.buffer, skips) + Adds(s.writer.c, skips)
  {
    var s' := Apply(max, s, Step.Push);
    if HasNoResponses(s.writer.c) {
      assert Pending(s') == Pending(s);
    } else {
      TallySnoc(s.buffer, s.writer.c, skips);
      TallySnoc(Pending(s), s.writer.c, skips);
      assert Pending(s') == Pending(s) + [s.writer.c];
    }
  }

  lemma FailTallies(max: nat, s: State, skips: bool)
    requires Enabled(s, Fail)
    ensures var s' := Apply(max, s, Fail);
            Tally(Pending(s'), skips) <= Tally(Pending(s), skips) && Tally(s'.buffer, skips) <= Tally(s.buffer, skips)
  {
    var s' := Apply(max, s, Fail);
    if s.buffer != [] {
      assert Pending(s') == Pending(s)[..|Pending(s)| - 1];
    }
  }

  lemma WriterTallies(max: nat, s: State, step: Step, skips: bool)
    requires Enabled(s, step) && OfWriter(step)
    ensures var s', more := Apply(max, s, step), if step.Push? then Adds(s.writer.c, skips) else 0;
            && Tally(Pending(s'), skips) <= Tally(Pending(s), skips) + more
            && Tally(s'.buffer, skips) <= Tally(s.buffer, skips) + more
  {
    if step.Push? {
      PushTallies(max, s, skips);
    } else if step.Fail? {
      FailTallies(max, s, skips);
    } else {
      StillTallies(max, s, step);
    }
  }

  /** The other steps of the router move no commands. */
  lemma StillTallies(max: nat, s: State, step: Step)
    requires Enabled(s, step) && OfWriter(step) && !step.Push? && !step.Fail?
    ensures Apply(max, s, step).buffer == s.buffer && Pending(Apply(max, s, step)) == Pending(s)
  {
  }

  lemma ReaderTallies(max: nat, s: State, step: Step, skips: bool)
    requires Enabled(s, step) && !OfWriter(step)
    ensures Tally(Pending(Apply(max, s, step)), skips) <= Tally(Pending(s), skips)
  {
    var s' := Apply(max, s, step);
    if Ends(s, step) {
      EndsFinish(max, s, step);
      TallyFront(Pending(s), skips);
    } else {
      ReaderKeepsIds(max, s, step);
      TallySame(Pending(s), Pending(s'), skips);
    }
  }

  /** With single replies nothing is put back on the deque. */
  lemma ReaderShortensDeque(max: nat, s: State, step: Step)
    requires Enabled(s, step) && !OfWriter(step) && PlainState(s)
    ensures var buffer := Apply(max, s, step).buffer; buffer == s.buffer || (s.buffer != [] && buffer == s.buffer[1..])
  {
  }

  lemma ReaderKeepsWriter(max: nat, s: State, step: Step)
    requires Enabled(s, step) && !OfWriter(step)
    ensures var s' := Apply(max, s, step); s'.writer == s.writer && s'.next == s.next && s'.silent == s.silent
  {
  }

  // ---- The counter does not wrap ----

  /** The number of commands in the run that skip the check. */
  ghost function Skips(steps: seq<Step>): nat {
    if steps == [] then 0 else Skips(steps[..|steps| - 1]) + SkipOf(steps[|steps| - 1])
  }

  function SkipOf(step: Step): nat {
    if step.Submit? && step.c.skips then 1 else 0
  }

  /** The counter cannot wrap: fewer commands were submitted than a word can count, or the limit, the commands that skip the
    * check and the argument-less unsubscribes leave room for it. */
  ghost predicate Fits(max: nat, steps: seq<Step>) {
    Run(max, steps).next < WORD || Skips(steps) + Run(max, steps).silent + max + 3 < WORD
  }

  lemma FitsBefore(max: nat, steps: seq<Step>)
    requires steps != [] && Fits(max, steps)
    ensures Fits(max, steps[..|steps| - 1])
  {
    NumbersGrow(max, Run(max, steps[..|steps| - 1]), steps[|steps| - 1]);
  }

  lemma NumbersGrow(max: nat, s: State, step: Step)
    ensures s.silent <= Apply(max, s, step).silent && s.next <= Apply(max, s, step).next
  {
  }

  /** The router holds a command that is neither waiting nor counted as silent. */
  predicate InHand(w: Writer) {
    w.Checking? || w.Writing? || ((w.Pushed? || w.Written?) && HasNoResponses(w.c))
  }

  function Spare(w: Writer): nat {
    if InHand(w) then 1 else 0
  }

  /** Of the skipping commands: the one on its way to the deque. */
  function SpareSkip(w: Writer): nat {
    if (w.Checking? || w.Writing?) && w.c.skips then 1 else 0
  }

  ghost predicate Numbered(s: State) {
    |Pending(s)| + s.silent + Spare(s.writer) <= s.next
  }

  lemma WriterNumbers(max: nat, s: State, step: Step, n: nat, n': nat)
    requires Enabled(s, step) && OfWriter(step) && n + s.silent + Spare(s.writer) <= s.next
    requires n' <= n + if step.Push? && !HasNoResponses(s.writer.c) then 1 else 0
    ensures var s' := Apply(max, s, step); n' + s'.silent + Spare(s'.writer) <= s'.next
  {
  }

  lemma StepKeepsNumbered(max: nat, s: State, step: Step)
    requires Numbered(s) && Enabled(s, step)
    ensures Numbered(Apply(max, s, step))
  {
    var s' := Apply(max, s, step);
    TallyAll(Pending(s));
    TallyAll(Pending(s'));
    if OfWriter(step) {
      WriterTallies(max, s, step, true);
      WriterTallies(max, s, step, false);
      WriterNumbers(max, s, step, |Pending(s)|, |Pending(s')|);
    } else {
      ReaderTallies(max, s, step, true);
      ReaderTallies(max, s, step, false);
      ReaderKeepsWriter(max, s, step);
    }
  }

  lemma {:induction false} EveryRunIsNumbered(max: nat, steps: seq<Step>)
    ensures Numbered(Run(max, steps))
  {
    if steps != [] {
      var before := steps[..|steps| - 1];
      EveryRunIsNumbered(max, before);
      if Enabled(Run(max, before), steps[|steps| - 1]) {
        StepKeepsNumbered(max, Run(max, before), steps[|steps| - 1]);
      }
    }
  }

  lemma WriterSkips(max: nat, s: State, step: Step, n: nat, n': nat, skips: nat)
    requires Enabled(s, step) && OfWriter(step) && n + SpareSkip(s.writer) <= skips
    requires n' <= n + if step.Push? then Adds(s.writer.c, true) else 0
    ensures n' + SpareSkip(Apply(max, s, step).writer) <= skips + SkipOf(step)
  {
  }

  /** At most as many skipping commands wait as were submitted. */
  lemma {:induction false} EveryRunSkips(max: nat, steps: seq<Step>)
    ensures Tally(Pending(Run(max, steps)), true) + SpareSkip(Run(max, steps).writer) <= Skips(steps)
  {
    if steps != [] {
      var before, step := steps[..|steps| - 1], steps[|steps| - 1];
      EveryRunSkips(max, before);
      var s, s' := Run(max, before), Run(max, steps);
      if Enabled(s, step) {
        if OfWriter(step) {
          WriterTallies(max, s, step, true);
          WriterSkips(max, s, step, Tally(Pending(s), true), Tally(Pending(s'), true), Skips(before));
        } else {
          ReaderTallies(max, s, step, true);
          ReaderKeepsWriter(max, s, step);
        }
      }
    }
  }

  // ---- The bound ----

  /** The check reads a counter that is short by at most the one command in the reader's hands, or being put back. */
  lemma CounterShortByOne(s: State)
    requires s.writer.Checking? && Counts(s) && Tidy(s) && |Pending(s)| + s.silent < WORD
    ensures |Pending(s)| <= s.inFlight + 1
    ensures !s.reader.Requeued? ==> |s.buffer| <= s.inFlight
  {
    assert 0 <= Total(s) < WORD;
    assert s.inFlight == Total(s);
  }

  /** Numbers only: `n` commands before a step of the router, `n'` after it. */
  lemma WriterKeepsBound(max: nat, slack: nat, s: State, step: Step, n: nat, n': nat)
    requires n <= Limit(max, slack, s.writer) && Tidy(s) && Enabled(s, step) && OfWriter(step)
    requires n' <= n + if step.Push? then Adds(s.writer.c, false) else 0
    requires step.Check? ==> n <= s.inFlight + slack
    requires step.Wake? && !HasNoResponses(s.writer.c) ==> n <= slack
    ensures n' <= Limit(max, slack, Apply(max, s, step).writer)
  {
  }

  /** Of the commands without an answer, those that heed the check stay within the limit and three more. */
  ghost predicate Bounded(max: nat, s: State) {
    Tally(Pending(s), false) <= Limit(max, 1, s.writer)
  }

  /** So do those on the deque, by one less, if every command has a single reply. */
  ghost predicate DequeBounded(max: nat, s: State) {
    Tally(s.buffer, false) <= Limit(max, 0, s.writer)
  }

  lemma RoomInTheCounter(max: nat, steps: seq<Step>)
    requires Fits(max, steps) && Bounded(max, Run(max, steps))
    ensures var s := Run(max, steps); s.writer.Checking? ==> |Pending(s)| + s.silent < WORD
  {
    var s := Run(max, steps);
    EveryRunIsNumbered(max, steps);
    EveryRunSkips(max, steps);
    TallyAll(Pending(s));
  }

  /** What the router knows when it checks, and when it is let go. */
  lemma CheckSees(max: nat, steps: seq<Step>, step: Step)
    requires Fits(max, steps) && Bounded(max, Run(max, steps)) && Enabled(Run(max, steps), step)
    ensures var s := Run(max, steps);
            && (step.Check? ==> Tally(Pending(s), false) <= s.inFlight + 1)
            && (step.Check? && !s.reader.Requeued? ==> Tally(s.buffer, false) <= s.inFlight)
            && (step.Wake? && !HasNoResponses(s.writer.c) ==> s.buffer == [] && Tally(Pending(s), false) <= 1)
  {
    var s := Run(max, steps);
    TallyAll(Pending(s));
    TallyAll(s.buffer);
    if step.Check? {
      EveryRunIsTidy(max, steps);
      EveryRunCounts(max, steps);
      RoomInTheCounter(max, steps);
      CounterShortByOne(s);
    } else if step.Wake? && !HasNoResponses(s.writer.c) {
      EveryRunKeepsOrder(max, steps);
      EveryRunAnnounces(max, steps);
      ReleasedMeansDrained(s);
    }
  }

  lemma BoundStep(max: nat, before: seq<Step>, step: Step)
    requires Fits(max, before) && Enabled(Run(max, before), step) && Bounded(max, Run(max, before))
    ensures Bounded(max, Apply(max, Run(max, before), step))
  {
    var s, s' := Run(max, before), Apply(max, Run(max, before), step);
    if OfWriter(step) {
      EveryRunIsTidy(max, before);
      CheckSees(max, before, step);
      WriterTallies(max, s, step, false);
      WriterKeepsBound(max, 1, s, step, Tally(Pending(s), false), Tally(Pending(s'), false));
    } else {
      ReaderTallies(max, s, step, false);
      ReaderKeepsWriter(max, s, step);
    }
  }

  lemma {:induction false} EveryRunIsBounded(max: nat, steps: seq<Step>)
    requires Fits(max, steps)
    ensures Bounded(max, Run(max, steps))
  {
    if steps != [] {
      var before, step := steps[..|steps| - 1], steps[|steps| - 1];
      FitsBefore(max, steps);
      EveryRunIsBounded(max, before);
      if Enabled(Run(max, before), step) {
        BoundStep(max, before, step);
      }
    }
  }

  /** In every run, whatever the server sends, at most `max + 3` commands that heed the check are without an answer, as long as
    * the counter does not wrap: the command in the reader's hands is counted down before its caller is answered, so the check
    * misses it. With the commands that skip the check, those that were submitted come on top. */
  lemma UnansweredIsBounded(max: nat, steps: seq<Step>)
    requires Fits(max, steps)
    ensures var s := Run(max, steps);
            && Tally(Pending(s), false) <= max + 3
            && |Pending(s)| <= max + 3 + Skips(steps)
            && (forall i :: 0 <= i < |Pending(s)| ==> Pending(s)[i].id !in s.answered)
            && (!s.writer.Broken? ==> IdsOf(s.sent) - s.answered <= IdsOf(Pending(s)))
  {
    EveryRunIsBounded(max, steps);
    EveryRunSkips(max, steps);
    TallyAll(Pending(Run(max, steps)));
    EveryRunKeepsOrder(max, steps);
    EveryRunAccounts(max, steps);
  }

  lemma DequeBoundStep(max: nat, before: seq<Step>, step: Step)
    requires Plain(before) && Fits(max, before)
    requires Enabled(Run(max, before), step) && DequeBounded(max, Run(max, before))
    ensures DequeBounded(max, Apply(max, Run(max, before), step))
  {
    var s, s' := Run(max, before), Apply(max, Run(max, before), step);
    EveryRunIsPlain(max, before);
    if OfWriter(step) {
      EveryRunIsTidy(max, before);
      EveryRunIsBounded(max, before);
      CheckSees(max, before, step);
      WriterTallies(max, s, step, false);
      WriterKeepsBound(max, 0, s, step, Tally(s.buffer, false), Tally(s'.buffer, false));
    } else {
      ReaderShortensDeque(max, s, step);
      if s.buffer != [] {
        TallyFront(s.buffer, false);
      }
      ReaderKeepsWriter(max, s, step);
    }
  }

  lemma {:induction false} EveryPlainRunBoundsTheDeque(max: nat, steps: seq<Step>)
    requires Plain(steps) && Fits(max, steps)
    ensures DequeBounded(max, Run(max, steps))
  {
    if steps != [] {
      var before, step := steps[..|steps| - 1], steps[|steps| - 1];
      FitsBefore(max, steps);
      EveryPlainRunBoundsTheDeque(max, before);
      if Enabled(Run(max, before), step) {
        DequeBoundStep(max, before, step);
      }
    }
  }

  /** The commands the server still owes frames, as far as the client has noticed: those on the deque, and the one in the
    * reader's hands if more of its frames are to come. */
  ghost function Owed(s: State): seq<Command> {
    HeldLeft(s.reader) + s.buffer
  }

  /** Of the commands that heed the check at most `max + 3` are owed frames, and at most `max + 2` if every command has a
    * single reply and the server sends one. */
  lemma FramesOwedAreBounded(max: nat, steps: seq<Step>)
    requires Fits(max, steps)
    ensures var s := Run(max, steps);
            && Tally(Owed(s), false) <= max + 3
            && |Owed(s)| <= max + 3 + Skips(steps)
            && (Plain(steps) ==> Tally(s.buffer, false) <= max + 2 && |s.buffer| <= max + 2 + Skips(steps))
            && (Plain(steps) && AllowedRun(max, steps) ==> Owed(s) == s.buffer)
  {
    var s := Run(max, steps);
    UnansweredIsBounded(max, steps);
    OwedArePending(s);
    if Plain(steps) {
      EveryPlainRunBoundsTheDeque(max, steps);
      PlainDeque(max, steps);
      if AllowedRun(max, steps) {
        PlainHoldsNothingBack(max, steps);
      }
    }
  }

  lemma OwedArePending(s: State)
    ensures Tally(Owed(s), false) <= Tally(Pending(s), false) && |Owed(s)| <= |Pending(s)|
  {
    var held := if Waits(s.reader) then [s.reader.c] else [];
    TallyConcat(HeldLeft(s.reader), s.buffer, false);
    TallyConcat(held, s.buffer, false);
    if HeldLeft(s.reader) != [] {
      assert Same(held[0], HeldLeft(s.reader)[0]);
      TallySame(held, HeldLeft(s.reader), false);
    }
  }

  lemma PlainDeque(max: nat, steps: seq<Step>)
    requires DequeBounded(max, Run(max, steps))
    ensures |Run(max, steps).buffer| <= max + 2 + Skips(steps)
  {
    var s := Run(max, steps);
    EveryRunSkips(max, steps);
    TallyAll(s.buffer);
    TallyConcat(if Waits(s.reader) then [s.reader.c] else [], s.buffer, true);
  }

  /** A single reply leaves nothing to requeue. */
  lemma PlainHoldsNothingBack(max: nat, steps: seq<Step>)
    requires AllowedRun(max, steps) && Plain(steps)
    ensures HeldLeft(Run(max, steps).reader) == []
  {
    EveryRunIsPlain(max, steps);
    EveryRunMatches(max, steps);
  }

  // ---- The bounds are reached, for every limit ----

  /** A run with the server of the matching theorems and at most `k` commands that skip the check; `plain` if all its commands
    * have a single reply. */
  ghost predicate Reachable(max: nat, plain: bool, k: nat, s: State) {
    exists steps :: AllowedRun(max, steps) && (plain ==> Plain(steps)) && Skips(steps) <= k && Run(max, steps) == s
  }

  lemma Extend(max: nat, plain: bool, k: nat, s: State, step: Step)
    requires Reachable(max, plain, k, s) && Allowed(s, step)
    requires step.Submit? && plain ==> !step.c.response.Multiple?
    ensures Reachable(max, plain, k + SkipOf(step), Apply(max, s, step))
  {
    var steps :| AllowedRun(max, steps) && (plain ==> Plain(steps)) && Skips(steps) <= k && Run(max, steps) == s;
    RunOneMore(max, steps, step);
    assert (steps + [step])[..|steps|] == steps;
    assert plain ==> Plain(steps + [step]);
  }

  /** A pipelined command with the replies the server owes it. */
  ghost predicate Ordinary(plain: bool, c: Command) {
    && c.received == 0 && c.pipelined && !HasNoResponses(c) && c.replies != []
    && InOrder(c) && NoLookalike(c) && (plain ==> !c.response.Multiple?)
  }

  /** The router passes the check: freely within the limit or if the command skips it, and otherwise with a router channel. */
  lemma PassCheck(max: nat, plain: bool, k: nat, s: State, c: Command) returns (channel: bool)
    requires Reachable(max, plain, k, s) && s.writer == Idle && c.id == s.next && Ordinary(plain, c)
    ensures channel == (!c.skips && s.inFlight > max)
    ensures Reachable(max, plain, k + One(c, true), s.(writer := Writing(c, channel), next := s.next + 1))
  {
    var k' := k + One(c, true);
    Extend(max, plain, k, s, Submit(c));
    var s1 := s.(writer := Checking(c, c.skips, false), next := s.next + 1);
    Extend(max, plain, k', s1, Check);
    channel := !c.skips && s.inFlight > max;
    if channel {
      Extend(max, plain, k', s1.(writer := Checking(c, true, true)), Check);
    }
  }

  /** A write up to the socket. */
  lemma WriteOne(max: nat, plain: bool, k: nat, s: State, c: Command) returns (channel: bool, s': State)
    requires Reachable(max, plain, k, s) && s.writer == Idle && c.id == s.next && Ordinary(plain, c)
    ensures Reachable(max, plain, k + One(c, true), s') && channel == (!c.skips && s.inFlight > max)
    ensures s' == s.(writer := Written(c, channel), buffer := s.buffer + [c], serving := s.serving + [c],
                     sent := s.sent + [c], next := s.next + 1)
  {
    channel := PassCheck(max, plain, k, s, c);
    s' := PushAndSend(max, plain, k + One(c, true), s.(writer := Writing(c, channel), next := s.next + 1), c, channel);
  }

  lemma PushAndSend(max: nat, plain: bool, k: nat, s: State, c: Command, channel: bool) returns (s': State)
    requires Reachable(max, plain, k, s) && s.writer == Writing(c, channel) && !HasNoResponses(c) && c.replies != []
    ensures Reachable(max, plain, k, s')
    ensures s' == s.(writer := Written(c, channel), buffer := s.buffer + [c], serving := s.serving + [c], sent := s.sent + [c])
  {
    Extend(max, plain, k, s, Step.Push);
    var s1 := s.(writer := Pushed(c, channel), buffer := s.buffer + [c]);
    Extend(max, plain, k, s1, Send);
    s' := Apply(max, s1, Send);
  }

  /** GET, as part of a pipeline if `skips`. */
  function GetAs(id: nat, skips: bool): Command {
    Get(id).(skips := skips)
  }

  lemma GetIsOrdinary(plain: bool, id: nat, skips: bool)
    ensures Ordinary(plain, GetAs(id, skips))
  {
  }

  lemma CountedWrite(max: nat, plain: bool, k: nat, s: State, c: Command)
    requires Reachable(max, plain, k, s) && s.writer == Written(c, false) && !HasNoResponses(c) && s.inFlight + 1 < WORD
    ensures Reachable(max, plain, k, s.(writer := Idle, inFlight := s.inFlight + 1))
  {
    CountWriteIs(max, s, c);
    Extend(max, plain, k, s, CountWrite);
  }

  lemma CountWriteIs(max: nat, s: State, c: Command)
    requires s.writer == Written(c, false) && !HasNoResponses(c) && s.inFlight + 1 < WORD
    ensures Apply(max, s, CountWrite) == s.(writer := Idle, inFlight := s.inFlight + 1)
  {
  }

  /** A write that is not blocked, counted. */
  lemma FreeWrite(max: nat, plain: bool, k: nat, s: State, c: Command) returns (s': State)
    requires Reachable(max, plain, k, s) && s.writer == Idle && (c.skips || s.inFlight <= max) && s.inFlight + 1 < WORD
    requires Ordinary(plain, c) && c.id == s.next
    ensures Reachable(max, plain, k + One(c, true), s')
    ensures s' == s.(buffer := s.buffer + [c], serving := s.serving + [c], sent := s.sent + [c], next := s.next + 1,
                     inFlight := s.inFlight + 1)
  {
    var channel, s1 := WriteOne(max, plain, k, s, c);
    CountedWrite(max, plain, k + One(c, true), s1, c);
    s' := s1.(writer := Idle, inFlight := s1.inFlight + 1);
  }

  /** `n` writes go through without waiting: up to `max + 1` of them, or any number that skip the check. */
  lemma {:induction false} FreeWrites(max: nat, plain: bool, k: nat, s: State, n: nat, skips: bool) returns (s': State)
    requires Reachable(max, plain, k, s) && s.writer == Idle && s.inFlight + n < WORD
    requires skips || s.inFlight + n <= max + 1
    ensures Reachable(max, plain, k + if skips then n else 0, s') && s'.writer == Idle && s'.reader == s.reader
    ensures s'.inFlight == s.inFlight + n && |s'.buffer| == |s.buffer| + n && s'.next == s.next + n
    ensures |s'.sent| == |s.sent| + n && s'.silent == s.silent
    decreases n
  {
    s' := s;
    if n > 0 {
      var c := GetAs(s.next, skips);
      GetIsOrdinary(plain, s.next, skips);
      s' := FreeWrite(max, plain, k, s, c);
      s' := FreeWrites(max, plain, k + One(c, true), s', n - 1, skips);
    }
  }

  /** The first command is written and counted, its first frame taken and counted down, and its caller not yet answered. */
  lemma FirstTaken(max: nat, plain: bool, c: Command) returns (s: State)
    requires c.id == 0 && Ordinary(plain, c) && !c.skips
    ensures Reachable(max, plain, 0, s) && s.writer == Idle && s.reader == Counted(c, c.replies[0])
    ensures s.inFlight == 0 && s.buffer == [] && s.next == 1 && |s.sent| == 1 && s.silent == 0
  {
    assert AllowedRun(max, []) && Plain([]) && Skips([]) == 0 && Run(max, []) == START;
    s := FreeWrite(max, plain, 0, START, c);
    FrontIsTaken(c);
    s := TakeFirst(max, plain, s, c);
  }

  lemma FrontIsTaken(c: Command)
    requires NoLookalike(c) && c.replies != []
    ensures TakeFront([c], c.replies[0]) == (Some(c), [])
  {
    assert [c][1..] == [];
  }

  lemma TakeFirst(max: nat, plain: bool, s: State, c: Command) returns (s': State)
    requires Reachable(max, plain, 0, s) && s.writer == Idle && s.reader == Ready && s.inFlight == 1
    requires s.buffer == [c] && s.serving == [c] && c.received == 0 && c.replies != []
    requires TakeFront([c], c.replies[0]) == (Some(c), [])
    ensures Reachable(max, plain, 0, s') && s'.writer == Idle && s'.reader == Counted(c, c.replies[0])
    ensures s'.inFlight == 0 && s'.buffer == [] && s'.next == s.next && s'.sent == s.sent && s'.silent == s.silent
  {
    AloneIsTaken(s, c);
    Extend(max, plain, 0, s, Receive);
    var s1 := Deliver(s);
    Extend(max, plain, 0, s1, CountRead);
    s' := Apply(max, s1, CountRead);
  }

  /** The crowded connection: the first command is in the reader's hands, `max + 1` free writes, `k` writes that skip the check
    * and a blocked one follow. */
  lemma CrowdedRun(max: nat, plain: bool, k: nat, c: Command) returns (s: State)
    requires max + 3 + k < WORD && c.id == 0 && Ordinary(plain, c) && !c.skips
    ensures Reachable(max, plain, k, s) && s.reader == Counted(c, c.replies[0])
    ensures |s.buffer| == max + 2 + k && |s.sent| == max + 3 + k && s.silent == 0
  {
    var s1 := FirstTaken(max, plain, c);
    var s2 := FreeWrites(max, plain, 0, s1, max + 1, false);
    var s3 := FreeWrites(max, plain, 0, s2, k, true);
    var channel;
    GetIsOrdinary(plain, s3.next, false);
    channel, s := WriteOne(max, plain, k, s3, GetAs(s3.next, false));
  }

  /** A subscription to two channels. */
  function Subscribe(): Command {
    Command(0, false, true, Multiple(2), 0, true, false, [Null, Null])
  }

  /** For every limit and every number `k` of commands that skip the check, `max + 3 + k` written commands can be without an
    * answer although each has a single reply. All but one of them are still owed their frame. */
  lemma PlainRunReachesTheBound(max: nat, k: nat) returns (s: State)
    requires max + 3 + k < WORD
    ensures Reachable(max, true, k, s) && s.silent == 0 && |s.sent| == |Pending(s)| == max + 3 + k && |Owed(s)| == max + 2 + k
  {
    s := CrowdedRun(max, true, k, Get(0));
  }

  /** For every limit, one command more can be owed frames once a command has several replies. */
  lemma MultipleRepliesOweMore(max: nat, k: nat) returns (s: State)
    requires max + 3 + k < WORD
    ensures Reachable(max, false, k, s) && |Owed(s)| == max + 3 + k
  {
    s := CrowdedRun(max, false, k, Subscribe());
  }

  /** Every run with at most `k` commands that skip the check leaves at most `bound` commands without an answer. */
  ghost predicate Suffices(max: nat, k: nat, bound: nat) {
    forall steps :: Skips(steps) <= k && Run(max, steps).silent + max + 3 + k < WORD ==> |Pending(Run(max, steps))| <= bound
  }

  /** The limit alone does not bound the commands without an answer: the exact bound is the limit, three, and the number of
    * commands that skip the check. */
  lemma SufficesIff(max: nat, k: nat, bound: nat)
    requires max + 3 + k < WORD
    ensures Suffices(max, k, bound) <==> max + 3 + k <= bound
  {
    if max + 3 + k <= bound {
      forall steps | Skips(steps) <= k && Run(max, steps).silent + max + 3 + k < WORD
        ensures |Pending(Run(max, steps))| <= bound
      {
        UnansweredIsBounded(max, steps);
      }
    } else {
      var s := PlainRunReachesTheBound(max, k);
      var steps :| AllowedRun(max, steps) && Plain(steps) && Skips(steps) <= k && Run(max, steps) == s;
      assert |Pending(Run(max, steps))| > bound;
    }
  }
}
