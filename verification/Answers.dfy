/** What reaches the callers of one connection: each command is answered at most once, and with a server that answers in
  * order each one is answered with the last of its own replies. */
module Answers {
  import opened Prelude
  import opened Frames
  import opened Connection
  import opened Backpressure

  // ---- At most one answer, whatever the server sends ----

  ghost function IdsOfAnswers(answers: seq<Answer>): set<nat> {
    set a | a in answers :: a.c.id
  }

  /** The ids are those of the answers, and no command has two. */
  ghost predicate Once(s: State) {
    && s.answered == IdsOfAnswers(s.answers)
    && forall i, j :: 0 <= i < j < |s.answers| ==> s.answers[i].c.id != s.answers[j].c.id
  }

  lemma IdsOfAnswersSnoc(answers: seq<Answer>, a: Answer)
    ensures IdsOfAnswers(answers + [a]) == IdsOfAnswers(answers) + {a.c.id}
  {
    assert a in answers + [a];
    forall b | b in answers
      ensures b in answers + [a]
    {
    }
  }

  /** The step hands on nothing, or one answer to a command that has none. */
  ghost predicate AddsOne(s: State, s': State) {
    || (s'.answers == s.answers && s'.answered == s.answered)
    || (exists a: Answer :: a.c.id !in s.answered && s'.answers == s.answers + [a] && s'.answered == s.answered + {a.c.id})
  }

  lemma AddingOneKeepsOnce(s: State, s': State)
    requires Once(s) && AddsOne(s, s')
    ensures Once(s')
  {
    if s'.answers != s.answers {
      var a: Answer :| a.c.id !in s.answered && s'.answers == s.answers + [a] && s'.answered == s.answered + {a.c.id};
      IdsOfAnswersSnoc(s.answers, a);
      forall i | 0 <= i < |s.answers|
        ensures s.answers[i].c.id != a.c.id
      {
        assert s.answers[i] in s.answers;
      }
    }
  }

  lemma TellsOne(s: State, s': State, c: Command, frame: Frame)
    requires c.id !in s.answered && s'.answers == Tell(s, c, frame).answers && s'.answered == Tell(s, c, frame).answered
    ensures AddsOne(s, s')
  {
    assert Answer(c, frame).c.id !in s.answered;
  }

  lemma ReaderAddsOne(max: nat, s: State, step: Step)
    requires Unfinished(s) && Enabled(s, step) && !OfWriter(step)
    ensures AddsOne(s, Apply(max, s, step))
  {
    if Ends(s, step) {
      assert Pending(s)[0] == s.reader.c;
      TellsOne(s, Apply(max, s, step), s.reader.c, s.reader.frame);
    }
  }

  lemma WriterAddsOne(max: nat, s: State, step: Step)
    requires WriterIsLast(s) && Enabled(s, step) && OfWriter(step)
    ensures AddsOne(s, Apply(max, s, step))
  {
    if step.Push? && HasNoResponses(s.writer.c) {
      TellsOne(s, Apply(max, s, step), s.writer.c, Null);
    }
  }

  /** In every run, whatever the server sends, no command is answered twice. */
  lemma {:induction false} EveryCommandIsAnsweredOnce(max: nat, steps: seq<Step>)
    ensures Once(Run(max, steps))
  {
    if steps != [] {
      var before, step := steps[..|steps| - 1], steps[|steps| - 1];
      var s := Run(max, before);
      EveryCommandIsAnsweredOnce(max, before);
      EveryRunKeepsOrder(max, before);
      if Enabled(s, step) {
        if OfWriter(step) {
          WriterAddsOne(max, s, step);
        } else {
          ReaderAddsOne(max, s, step);
        }
        AddingOneKeepsOnce(s, Apply(max, s, step));
      }
    }
  }

  // ---- The right answer ----

  /** The frame the caller of a command has to get: the last reply, which is an error if the server sent one, or nothing. */
  function Due(c: Command): Frame {
    if c.replies == [] then Null else c.replies[|c.replies| - 1]
  }

  /** The command as it was submitted. */
  function Fresh(c: Command): Command {
    c.(received := 0)
  }

  /** The ids of the sent commands increase, up to the one in the router's hands. */
  ghost predicate SentInOrder(s: State) {
    && (forall i, j :: 0 <= i < j < |s.sent| ==> s.sent[i].id < s.sent[j].id)
    && (forall i :: 0 <= i < |s.sent| ==> s.sent[i].id < SentTop(s))
    && (Carrying(s.writer) ==> s.writer.c.id < s.next)
  }

  function SentTop(s: State): nat {
    if s.writer.Checking? || s.writer.Writing? || s.writer.Pushed? then s.writer.c.id else s.next
  }

  lemma SendKeepsSentInOrder(s: State, s': State)
    requires SentInOrder(s) && s.writer.Pushed? && s'.sent == s.sent + [s.writer.c] && s'.next == s.next
    requires s'.writer.Written? && s'.writer.c == s.writer.c
    ensures SentInOrder(s')
  {
    assert forall i :: 0 <= i < |s.sent| ==> s'.sent[i] == s.sent[i];
  }

  lemma SameSentStaysInOrder(s: State, s': State)
    requires SentInOrder(s) && s'.sent == s.sent && SentTop(s) <= SentTop(s')
    requires Carrying(s'.writer) ==> s'.writer.c.id < s'.next
    ensures SentInOrder(s')
  {
  }

  lemma StepKeepsSentInOrder(max: nat, s: State, step: Step)
    requires SentInOrder(s)
    ensures SentInOrder(Apply(max, s, step))
  {
    if step.Send? && Enabled(s, step) {
      SendKeepsSentInOrder(s, Apply(max, s, step));
    } else {
      TopsGrow(max, s, step);
      SameSentStaysInOrder(s, Apply(max, s, step));
    }
  }

  lemma TopsGrow(max: nat, s: State, step: Step)
    requires Carrying(s.writer) ==> s.writer.c.id < s.next
    ensures var s' := Apply(max, s, step);
            && (!step.Send? ==> s'.sent == s.sent && SentTop(s) <= SentTop(s'))
            && (Carrying(s'.writer) ==> s'.writer.c.id < s'.next)
  {
  }

  lemma {:induction false} EveryRunSendsInOrder(max: nat, steps: seq<Step>)
    ensures SentInOrder(Run(max, steps))
  {
    if steps != [] {
      var before := steps[..|steps| - 1];
      EveryRunSendsInOrder(max, before);
      StepKeepsSentInOrder(max, Run(max, before), steps[|steps| - 1]);
    }
  }

  /** Everything handed on, or about to be, is the due frame of a command that was sent or needs no reply. */
  ghost predicate Fair(s: State) {
    && (forall i :: 0 <= i < |s.answers| ==> FairAnswer(s, s.answers[i].c, s.answers[i].frame))
    && (s.reader.Answering? ==> FairAnswer(s, s.reader.c, s.reader.frame))
  }

  ghost predicate FairAnswer(s: State, c: Command, frame: Frame) {
    frame == Due(c) && (Fresh(c) in s.sent || (HasNoResponses(c) && Unsendable(s, c)))
  }

  /** The command is about to be sent, or never will be. */
  ghost predicate Unsendable(s: State, c: Command) {
    || (s.writer.Pushed? && s.writer.c == Fresh(c))
    || (s.writer.Broken? && forall k :: 0 <= k < |s.sent| ==> s.sent[k].id < c.id)
  }

  /** The commands the server works on, and the one in the reader's hands, were sent. */
  ghost predicate Known(s: State) {
    && (forall i :: 0 <= i < |s.serving| ==> Fresh(s.serving[i]) in s.sent)
    && (Held(s.reader) ==> Fresh(s.reader.c) in s.sent)
  }

  lemma FairStays(s: State, s': State)
    requires Fair(s) && s'.answers == s.answers && s.sent <= s'.sent && (s'.reader.Answering? ==> s'.reader == s.reader)
    requires forall c :: Unsendable(s, c) ==> Unsendable(s', c) || Fresh(c) in s'.sent
    ensures Fair(s')
  {
    assert forall c :: c in s.sent ==> c in s'.sent;
  }

  /** A command without replies that was answered is sent next, or its write fails. */
  lemma StaysUnsendable(max: nat, s: State, step: Step, c: Command)
    requires SentInOrder(s) && Enabled(s, step) && Unsendable(s, c)
    ensures Unsendable(Apply(max, s, step), c) || Fresh(c) in Apply(max, s, step).sent
  {
    if step.Send? {
      assert Apply(max, s, step).sent[|s.sent|] == Fresh(c);
    }
  }

  lemma SentGrows(max: nat, s: State, step: Step)
    ensures s.sent <= Apply(max, s, step).sent
  {
  }

  /** A command that is not put back has had its last frame. */
  lemma LastFrameIsDue(s: State)
    requires Shape(s) && Enabled(s, Respond) && AfterFrame(s.reader.c, s.reader.frame).None?
    ensures s.reader.frame == Due(s.reader.c)
  {
    RequeuedWhileOwed(s.reader.c);
  }

  lemma RespondKeepsFair(max: nat, s: State)
    requires Shape(s) && Known(s) && Fair(s) && Enabled(s, Respond)
    ensures Fair(Apply(max, s, Respond))
  {
    if AfterFrame(s.reader.c, s.reader.frame).None? {
      LastFrameIsDue(s);
      assert FairAnswer(s, s.reader.c, s.reader.frame);
    }
  }

  lemma PushKeepsFair(max: nat, s: State)
    requires Shape(s) && Fair(s) && Enabled(s, Step.Push)
    ensures Fair(Apply(max, s, Step.Push))
  {
    if HasNoResponses(s.writer.c) {
      assert Fresh(s.writer.c) == s.writer.c && Due(s.writer.c) == Null;
    }
  }

  lemma StepKeepsFair(max: nat, s: State, step: Step)
    requires Shape(s) && Known(s) && Fair(s) && SentInOrder(s) && Enabled(s, step)
    ensures Fair(Apply(max, s, step))
  {
    if step.Respond? {
      RespondKeepsFair(max, s);
    } else if step.Push? {
      PushKeepsFair(max, s);
    } else if !step.Finish? {
      SentGrows(max, s, step);
      forall c | Unsendable(s, c)
        ensures Unsendable(Apply(max, s, step), c) || Fresh(c) in Apply(max, s, step).sent
      {
        StaysUnsendable(max, s, step, c);
      }
      FairStays(s, Apply(max, s, step));
    }
  }

  lemma SendKeepsKnown(max: nat, s: State)
    requires Shape(s) && Known(s) && Enabled(s, Send)
    ensures Known(Apply(max, s, Send))
  {
    var s' := Apply(max, s, Send);
    assert forall c :: c in s.sent ==> c in s'.sent;
    assert s'.sent[|s.sent|] == s.writer.c && Fresh(s.writer.c) == s.writer.c;
  }

  lemma ReceiveKeepsKnown(max: nat, s: State)
    requires Shape(s) && Matched(s) && Known(s) && Enabled(s, Receive)
    ensures Known(Apply(max, s, Receive))
  {
    FrontIsServed(s);
    DeliverKeepsKnown(s, Deliver(s));
  }

  lemma DeliverKeepsKnown(s: State, s': State)
    requires Known(s) && s.serving != [] && s'.serving == Left(s.serving[0]) + s.serving[1..] && s'.sent == s.sent
    requires Held(s'.reader) ==> s'.reader.c == s.serving[0]
    ensures Known(s')
  {
    var c, n := s.serving[0], |Left(s.serving[0])|;
    forall i | 0 <= i < |s'.serving|
      ensures Fresh(s'.serving[i]) in s.sent
    {
      if i < n {
        assert Fresh(s'.serving[i]) == Fresh(c);
      } else {
        assert s'.serving[i] == s.serving[i + 1 - n];
      }
    }
  }

  lemma StepKeepsKnown(max: nat, s: State, step: Step)
    requires Shape(s) && Matched(s) && Known(s) && Enabled(s, step) && Allowed(s, step)
    ensures Known(Apply(max, s, step))
  {
    if step.Send? {
      SendKeepsKnown(max, s);
    } else if step.Receive? {
      ReceiveKeepsKnown(max, s);
    }
  }

  lemma {:induction false} EveryAllowedRunIsFair(max: nat, steps: seq<Step>)
    requires AllowedRun(max, steps)
    ensures Fair(Run(max, steps)) && Known(Run(max, steps))
  {
    if steps != [] {
      var before, step := steps[..|steps| - 1], steps[|steps| - 1];
      EveryAllowedRunIsFair(max, before);
      EveryRunMatches(max, before);
      EveryRunSendsInOrder(max, before);
      if Enabled(Run(max, before), step) {
        StepKeepsFair(max, Run(max, before), step);
        StepKeepsKnown(max, Run(max, before), step);
      }
    }
  }

  /** Over every interleaving with a server that answers in order: a command that was sent is answered at most once, and with
    * the last of its own replies, or with nothing if it expects none. */
  lemma EveryCallerGetsItsLastReply(max: nat, steps: seq<Step>, k: nat, i: nat)
    requires AllowedRun(max, steps)
    requires var s := Run(max, steps); k < |s.sent| && i < |s.answers|
    requires Run(max, steps).answers[i].c.id == Run(max, steps).sent[k].id
    ensures var s := Run(max, steps);
            && Fresh(s.answers[i].c) == s.sent[k]
            && s.answers[i].frame == Due(s.sent[k])
            && forall j :: 0 <= j < |s.answers| && j != i ==> s.answers[j].c.id != s.sent[k].id
  {
    var s := Run(max, steps);
    EveryAllowedRunIsFair(max, steps);
    EveryRunSendsInOrder(max, steps);
    EveryCommandIsAnsweredOnce(max, steps);
    var a := s.answers[i];
    assert FairAnswer(s, a.c, a.frame);
    if Fresh(a.c) in s.sent {
      var j :| 0 <= j < |s.sent| && s.sent[j] == Fresh(a.c);
      assert j == k;
    }
  }

  /** And an answered command that was sent has such an answer. */
  lemma AnsweredHasAnAnswer(max: nat, steps: seq<Step>, id: nat) returns (i: nat)
    requires id in Run(max, steps).answered
    ensures i < |Run(max, steps).answers| && Run(max, steps).answers[i].c.id == id
  {
    var s := Run(max, steps);
    EveryCommandIsAnsweredOnce(max, steps);
    var a :| a in s.answers && a.c.id == id;
    i :| i < |s.answers| && s.answers[i] == a;
  }

  /** When the server has nothing left to send and both tasks are at rest, every sent command has its one answer. */
  lemma EverySentCommandIsAnswered(max: nat, steps: seq<Step>, k: nat) returns (i: nat)
    requires AllowedRun(max, steps)
    requires var s := Run(max, steps);
             k < |s.sent| && s.serving == [] && s.reader.Ready? && !s.writer.Pushed? && !s.writer.Broken?
    ensures var s := Run(max, steps);
            i < |s.answers| && Fresh(s.answers[i].c) == s.sent[k] && s.answers[i].frame == Due(s.sent[k])
  {
    var s := Run(max, steps);
    SilentServerMeansEmptyDeque(max, steps);
    EveryRunAccounts(max, steps);
    assert s.sent[k].id in IdsOf(s.sent);
    i := AnsweredHasAnAnswer(max, steps, s.sent[k].id);
    EveryCallerGetsItsLastReply(max, steps, k, i);
  }
}
