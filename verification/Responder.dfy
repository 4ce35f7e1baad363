/** The buffered responder that several reader tasks share. Each task stores its frame at its own index, then counts
  * it, and the reader that counts the last one merges all frames and answers the caller. */
module Responder {
  import opened Prelude
  import opened Frames

  // ---- Merging ----

  /** What one buffered frame adds to the merged array: arrays and pushes are opened one level. */
  function Opened(f: Frame): seq<Frame> {
    match f
    case Array(items) => items
    case Push(items) => items
    case _ => [f]
  }

  function Concatenated(fs: seq<Frame>): seq<Frame> {
    if fs == [] then [] else Concatenated(fs[..|fs| - 1]) + Opened(fs[|fs| - 1])
  }

  lemma ConcatenatedSnoc(fs: seq<Frame>, f: Frame)
    ensures Concatenated(fs + [f]) == Concatenated(fs) + Opened(f)
  {
    assert (fs + [f])[..|fs|] == fs;
  }

  lemma Regroup(a: seq<Frame>, b: seq<Frame>, c: seq<Frame>)
    ensures a + b + c == a + (b + c)
  {
  }

  lemma {:induction false} ConcatenatedAdds(a: seq<Frame>, b: seq<Frame>, n: nat)
    requires n <= |b|
    ensures Concatenated(a + b[..n]) == Concatenated(a) + Concatenated(b[..n])
  {
    if n == 0 {
      assert a + b[..0] == a;
    } else {
      var front, last := b[..n - 1], b[n - 1];
      assert b[..n] == front + [last];
      Regroup(a, front, [last]);
      ConcatenatedAdds(a, b, n - 1);
      ConcatenatedSnoc(a + front, last);
      ConcatenatedSnoc(front, last);
      Regroup(Concatenated(a), Concatenated(front), Opened(last));
    }
  }

  /** Each frame is where its index puts it, after everything the frames before it give: an array or push by its items, any
    * other frame by itself. */
  lemma ConcatenatedKeepsPlaces(fs: seq<Frame>, i: nat)
    requires i < |fs|
    ensures var from, all := |Concatenated(fs[..i])|, Concatenated(fs);
            && Concatenated(fs[..i + 1]) <= all
            && if fs[i].Array? || fs[i].Push?
               then |Concatenated(fs[..i + 1])| == from + |fs[i].items| && all[from..from + |fs[i].items|] == fs[i].items
               else |Concatenated(fs[..i + 1])| == from + 1 && all[from] == fs[i]
  {
    var rest := fs[i + 1..];
    assert fs == fs[..i + 1] + rest && rest[..|rest|] == rest && fs[..i + 1] == fs[..i] + [fs[i]];
    ConcatenatedAdds(fs[..i + 1], rest, |rest|);
    ConcatenatedSnoc(fs[..i], fs[i]);
  }

  ghost predicate FirstErrorAt(fs: seq<Frame>, i: nat) {
    i < |fs| && IsError(fs[i]) && forall j :: 0 <= j < i ==> !IsError(fs[j])
  }

  ghost predicate NoErrors(fs: seq<Frame>) {
    forall j :: 0 <= j < |fs| ==> !IsError(fs[j])
  }

  /** What the merge of `fs` has to be: the first error by index, else the one-level concatenation. */
  ghost predicate Merges(fs: seq<Frame>, merged: Frame) {
    if NoErrors(fs) then merged == Array(Concatenated(fs))
    else exists i: nat :: FirstErrorAt(fs, i) && merged == fs[i]
  }

  function Merge(fs: seq<Frame>): Frame {
    var i := ErrorIndex(fs, 0);
    if i < |fs| then fs[i] else Array(Concatenated(fs))
  }

  function ErrorIndex(fs: seq<Frame>, from: nat): (i: nat)
    requires from <= |fs|
    ensures from <= i <= |fs|
    ensures forall j :: from <= j < i ==> !IsError(fs[j])
    ensures i < |fs| ==> IsError(fs[i])
    decreases |fs| - from
  {
    if from == |fs| || IsError(fs[from]) then from else ErrorIndex(fs, from + 1)
  }

  /** The drain loop of `merge_multiple_frames`. */
  method MergeMultipleFrames(frames: seq<Frame>) returns (merged: Frame)
    ensures Merges(frames, merged)
    ensures merged == Merge(frames)
  {
    var out := [];
    for k := 0 to |frames|
      invariant NoErrors(frames[..k])
      invariant out == Concatenated(frames[..k])
    {
      var frame := frames[k];
      if IsError(frame) {
        assert FirstErrorAt(frames, k) by {
          assert forall j :: 0 <= j < k ==> frames[j] == frames[..k][j];
        }
        MergeAtFirstError(frames, k);
        return frame;
      }
      assert frames[..k + 1][..k] == frames[..k];
      match frame
      case Array(items) => out := out + items;
      case Push(items) => out := out + items;
      case _ => out := out + [frame];
    }
    assert frames[..|frames|] == frames;
    merged := Array(out);
  }

  lemma MergeAtFirstError(fs: seq<Frame>, i: nat)
    requires FirstErrorAt(fs, i)
    ensures Merge(fs) == fs[i]
  {
    var e := ErrorIndex(fs, 0);
    assert e == i;
  }

  lemma MergeMeetsItsSpecification(fs: seq<Frame>)
    ensures Merges(fs, Merge(fs))
  {
    var e := ErrorIndex(fs, 0);
    if e < |fs| {
      assert FirstErrorAt(fs, e);
    }
  }

  // ---- The protocol ----

  /** Where one reader task is. `Counted` remembers the value its own increment returned. */
  datatype Task = Waiting | Stored | Counted(recv: nat) | Merged(frame: Frame) | Done

  datatype Answer = Reply(frame: Frame) | ErrorReply(frame: Frame) | BadIndex | Canceled

  /** One caller's buffer. Task `i` holds the reply to command `i`. The last three fields are a record of the run: the
    * tasks in the order of their increments, what each merge saw, and what reached the caller's channel. */
  datatype State = State(
    frames: seq<Frame>,
    received: nat,
    tx: bool,
    tasks: seq<Task>,
    order: seq<nat>,
    merges: seq<seq<Frame>>,
    answers: seq<Answer>)

  datatype Step =
    | Store(task: nat)
    | Count(task: nat)
    | MergeAll(task: nat)
    | Respond(task: nat)
    | Abort

  /** `expected` frames are allocated up front, as null frames. */
  function Start(expected: nat, tasks: nat): State {
    State(seq(expected, i => Null), 0, true, seq(tasks, i => Waiting), [], [], [])
  }

  predicate Enabled(s: State, step: Step) {
    match step
    case Store(i) => i < |s.tasks| && s.tasks[i] == Waiting
    case Count(i) => i < |s.tasks| && s.tasks[i] == Stored
    case MergeAll(i) => i < |s.tasks| && s.tasks[i].Counted?
    case Respond(i) => i < |s.tasks| && s.tasks[i].Merged?
    case Abort => true
  }

  /** `respond_locked`: the first to take the sender answers, later ones do nothing. */
  function RespondLocked(s: State, answer: Answer): State {
    if s.tx then s.(tx := false, answers := s.answers + [answer]) else s
  }

  function AnswerFor(merged: Frame): Answer {
    if IsError(merged) then ErrorReply(merged) else Reply(merged)
  }

  /** One atomic section of `respond_buffer` in task `i`, or the writer giving up on an all-nodes command.
    * A step whose turn has not come changes nothing, so every list of steps is an interleaving. */
  function Apply(expected: nat, replies: seq<Frame>, s: State, step: Step): (s': State)
    requires |replies| == |s.tasks|
    ensures |s'.tasks| == |s.tasks|
  {
    if !Enabled(s, step) then s else
    match step
    case Store(i) =>
      if i >= |s.frames| then RespondLocked(s, BadIndex).(tasks := s.tasks[i := Done])
      else s.(frames := s.frames[i := replies[i]], tasks := s.tasks[i := Stored])
    case Count(i) =>
      s.(received := s.received + 1, tasks := s.tasks[i := Counted(s.received + 1)], order := s.order + [i])
    case MergeAll(i) =>
      if s.tasks[i].recv == expected then
        s.(frames := [], merges := s.merges + [s.frames], tasks := s.tasks[i := Merged(Merge(s.frames))])
      else s.(tasks := s.tasks[i := Done])
    case Respond(i) =>
      RespondLocked(s, AnswerFor(s.tasks[i].frame)).(tasks := s.tasks[i := Done])
    case Abort =>
      RespondLocked(s, Canceled)
  }

  ghost function Run(expected: nat, replies: seq<Frame>, steps: seq<Step>): (s: State)
    ensures |s.tasks| == |replies|
  {
    if steps == [] then Start(expected, |replies|)
    else Apply(expected, replies, Run(expected, replies, steps[..|steps| - 1]), steps[|steps| - 1])
  }

  ghost predicate Finished(s: State) {
    forall i :: 0 <= i < |s.tasks| ==> s.tasks[i] == Done
  }

  // ---- What every interleaving keeps ----

  ghost function Indices(n: nat): (r: set<nat>)
    ensures forall i: nat :: i in r <==> i < n
    ensures |r| == n
  {
    if n == 0 then {} else Indices(n - 1) + {n - 1}
  }

  ghost function Members(s: seq<nat>): set<nat> {
    set i | i in s
  }

  lemma {:induction false} DistinctSize(s: seq<nat>)
    requires Distinct(s)
    ensures |Members(s)| == |s|
  {
    if s != [] {
      var front, last := s[..|s| - 1], s[|s| - 1];
      DistinctSize(front);
      assert Members(s) == Members(front) + {last};
    }
  }

  lemma SubsetSize(a: set<nat>, b: set<nat>)
    requires a <= b
    ensures |a| <= |b|
    ensures |a| == |b| ==> a == b
  {
    assert b == a + (b - a);
  }

  /** `n` different indices below `n` are all of them. */
  lemma Pigeonhole(s: seq<nat>, n: nat)
    requires Distinct(s) && forall k :: 0 <= k < |s| ==> s[k] < n
    ensures |s| <= n
    ensures |s| == n ==> forall i: nat :: i < n ==> i in s
  {
    DistinctSize(s);
    SubsetSize(Members(s), Indices(n));
    if |s| == n {
      forall i: nat | i < n
        ensures i in s
      {
        assert i in Members(s);
      }
    }
  }

  predicate HasCounted(t: Task) {
    t.Counted? || t.Merged? || t.Done?
  }

  /** The counter, and the values its increments handed out. Tasks out of range never count. */
  ghost predicate CountsAgree(expected: nat, s: State) {
    && s.received == |s.order|
    && Distinct(s.order)
    && (forall k :: 0 <= k < |s.order| ==> s.order[k] < expected && s.order[k] < |s.tasks|)
    && (forall i :: 0 <= i < |s.tasks| ==>
          if i < expected then HasCounted(s.tasks[i]) <==> i in s.order
          else s.tasks[i] == Waiting || s.tasks[i] == Done)
    && (forall i :: 0 <= i < |s.tasks| && s.tasks[i].Counted? ==>
          1 <= s.tasks[i].recv <= |s.order| && s.order[s.tasks[i].recv - 1] == i)
  }

  /** The state of the reader whose increment returned `expected`. */
  ghost function LastTask(expected: nat, s: State): Task {
    if 0 < expected <= |s.order| && s.order[expected - 1] < |s.tasks| then s.tasks[s.order[expected - 1]] else Waiting
  }

  ghost predicate AllStored(expected: nat, replies: seq<Frame>, s: State) {
    && |replies| == |s.tasks|
    && |s.frames| == expected
    && forall i :: 0 <= i < |s.tasks| && i < expected && s.tasks[i] != Waiting ==> s.frames[i] == replies[i]
  }

  /** Before the merge every stored frame is at its own index. The merge is left to the last task that counted, and
    * reads all the replies in order. */
  ghost predicate MergedOnce(expected: nat, replies: seq<Frame>, s: State) {
    if s.merges == [] then
      && AllStored(expected, replies, s)
      && (forall i :: 0 <= i < |s.tasks| ==> !s.tasks[i].Merged?)
      && (|s.order| == expected > 0 ==> LastTask(expected, s).Counted?)
    else
      && s.frames == []
      && |s.order| == expected > 0
      && expected <= |replies|
      && s.merges == [replies[..expected]]
      && !LastTask(expected, s).Counted?
      && (forall i :: 0 <= i < |s.tasks| && s.tasks[i].Merged? ==>
            i == s.order[expected - 1] && s.tasks[i].frame == Merge(replies[..expected]))
  }

  /** The caller's channel. */
  ghost predicate AnsweredOnce(expected: nat, replies: seq<Frame>, s: State) {
    if s.tx then
      && s.answers == []
      && (s.merges != [] ==> LastTask(expected, s).Merged?)
      && (forall i :: expected <= i < |s.tasks| ==> s.tasks[i] == Waiting)
    else
      || s.answers == [Canceled]
      || (s.answers == [BadIndex] && |replies| > expected)
      || (s.merges != [] && expected <= |replies| && s.answers == [AnswerFor(Merge(replies[..expected]))])
  }

  ghost predicate Invariant(expected: nat, replies: seq<Frame>, s: State) {
    && |replies| == |s.tasks|
    && CountsAgree(expected, s)
    && MergedOnce(expected, replies, s)
    && AnsweredOnce(expected, replies, s)
  }

  /** When `received` reaches `expected`, every task in range has counted. */
  lemma AllCounted(expected: nat, s: State)
    requires CountsAgree(expected, s)
    ensures |s.order| <= expected
    ensures |s.order| == expected ==> expected <= |s.tasks|
    ensures |s.order| == expected ==> forall i :: 0 <= i < expected ==> i < |s.tasks| && HasCounted(s.tasks[i])
  {
    Pigeonhole(s.order, expected);
    if |s.order| == expected > 0 {
      assert expected - 1 in s.order;
    }
  }

  /** Moving one task on, other than to count it, leaves the counts right. */
  lemma MoveKeepsCounts(expected: nat, s: State, s': State, i: nat, t: Task)
    requires CountsAgree(expected, s) && i < |s.tasks|
    requires s'.tasks == s.tasks[i := t] && s'.order == s.order && s'.received == s.received
    requires HasCounted(t) == HasCounted(s.tasks[i]) || (i >= expected && t == Done)
    requires !t.Counted? && (i >= expected ==> t == Done)
    ensures CountsAgree(expected, s')
  {
    forall j | 0 <= j < |s'.tasks|
      ensures if j < expected then HasCounted(s'.tasks[j]) <==> j in s'.order
              else s'.tasks[j] == Waiting || s'.tasks[j] == Done
    {
      assert j != i ==> s'.tasks[j] == s.tasks[j];
    }
  }

  lemma StoreKeeps(expected: nat, replies: seq<Frame>, s: State, i: nat)
    requires Invariant(expected, replies, s) && Enabled(s, Store(i))
    ensures Invariant(expected, replies, Apply(expected, replies, s, Store(i)))
  {
    AllCounted(expected, s);
    var s' := Apply(expected, replies, s, Store(i));
    MoveKeepsCounts(expected, s, s', i, s'.tasks[i]);
    StoreKeepsMerge(expected, replies, s, i);
  }

  lemma StoreKeepsMerge(expected: nat, replies: seq<Frame>, s: State, i: nat)
    requires |replies| == |s.tasks| && Enabled(s, Store(i))
    requires MergedOnce(expected, replies, s)
    requires s.merges != [] ==> i >= expected && i != s.order[expected - 1]
    ensures MergedOnce(expected, replies, Apply(expected, replies, s, Store(i)))
  {
    var s' := Apply(expected, replies, s, Store(i));
    assert forall j :: 0 <= j < |s.tasks| && j != i ==> s'.tasks[j] == s.tasks[j];
  }

  lemma CountKeepsCounts(expected: nat, replies: seq<Frame>, s: State, i: nat)
    requires |replies| == |s.tasks|
    requires CountsAgree(expected, s) && Enabled(s, Count(i)) && i !in s.order && i < expected
    ensures CountsAgree(expected, Apply(expected, replies, s, Count(i)))
  {
    var s' := Apply(expected, replies, s, Count(i));
    forall j | 0 <= j < |s'.tasks|
      ensures if j < expected then HasCounted(s'.tasks[j]) <==> j in s'.order
              else s'.tasks[j] == Waiting || s'.tasks[j] == Done
    {
      assert j != i ==> s'.tasks[j] == s.tasks[j];
      assert j in s'.order <==> j in s.order || j == i;
    }
  }

  lemma CountKeeps(expected: nat, replies: seq<Frame>, s: State, i: nat)
    requires Invariant(expected, replies, s) && Enabled(s, Count(i))
    ensures Invariant(expected, replies, Apply(expected, replies, s, Count(i)))
  {
    AllCounted(expected, s);
    CountKeepsCounts(expected, replies, s, i);
  }

  lemma LastMergeKeeps(expected: nat, replies: seq<Frame>, s: State, i: nat)
    requires |replies| == |s.tasks| && Enabled(s, MergeAll(i)) && s.tasks[i].recv == expected
    requires MergedOnce(expected, replies, s) && AnsweredOnce(expected, replies, s)
    requires |s.order| == expected > 0 && s.order[expected - 1] == i && expected <= |s.tasks|
    requires forall j :: 0 <= j < expected ==> HasCounted(s.tasks[j])
    ensures var s' := Apply(expected, replies, s, MergeAll(i));
            MergedOnce(expected, replies, s') && AnsweredOnce(expected, replies, s')
  {
    assert s.frames == replies[..expected];
  }

  /** A task that did not count the last frame leaves the merge to others. */
  lemma EarlyMergeKeeps(expected: nat, replies: seq<Frame>, s: State, i: nat)
    requires |replies| == |s.tasks| && Enabled(s, MergeAll(i)) && s.tasks[i].recv != expected
    requires 1 <= s.tasks[i].recv <= |s.order| && s.order[s.tasks[i].recv - 1] == i && Distinct(s.order) && i < expected
    requires MergedOnce(expected, replies, s) && AnsweredOnce(expected, replies, s)
    ensures var s' := Apply(expected, replies, s, MergeAll(i));
            MergedOnce(expected, replies, s') && AnsweredOnce(expected, replies, s')
  {
    var s' := Apply(expected, replies, s, MergeAll(i));
    assert forall j :: 0 <= j < |s.tasks| && j != i ==> s'.tasks[j] == s.tasks[j];
    assert 0 < expected <= |s.order| ==> s.order[expected - 1] != i;
    assert LastTask(expected, s') == LastTask(expected, s);
  }

  lemma MergeKeeps(expected: nat, replies: seq<Frame>, s: State, i: nat)
    requires Invariant(expected, replies, s) && Enabled(s, MergeAll(i))
    ensures Invariant(expected, replies, Apply(expected, replies, s, MergeAll(i)))
  {
    AllCounted(expected, s);
    var s' := Apply(expected, replies, s, MergeAll(i));
    MoveKeepsCounts(expected, s, s', i, s'.tasks[i]);
    if s.tasks[i].recv == expected {
      LastMergeKeeps(expected, replies, s, i);
    } else {
      EarlyMergeKeeps(expected, replies, s, i);
    }
  }

  lemma RespondKeeps(expected: nat, replies: seq<Frame>, s: State, i: nat)
    requires Invariant(expected, replies, s) && Enabled(s, Respond(i))
    ensures Invariant(expected, replies, Apply(expected, replies, s, Respond(i)))
  {
    var s' := Apply(expected, replies, s, Respond(i));
    MoveKeepsCounts(expected, s, s', i, s'.tasks[i]);
  }

  lemma AbortKeeps(expected: nat, replies: seq<Frame>, s: State)
    requires Invariant(expected, replies, s)
    ensures Invariant(expected, replies, Apply(expected, replies, s, Abort))
  {
  }

  lemma StartHolds(expected: nat, replies: seq<Frame>)
    ensures Invariant(expected, replies, Start(expected, |replies|))
  {
  }

  lemma StepKeeps(expected: nat, replies: seq<Frame>, s: State, step: Step)
    requires Invariant(expected, replies, s)
    ensures Invariant(expected, replies, Apply(expected, replies, s, step))
  {
    if Enabled(s, step) {
      match step
      case Store(i) => StoreKeeps(expected, replies, s, i);
      case Count(i) => CountKeeps(expected, replies, s, i);
      case MergeAll(i) => MergeKeeps(expected, replies, s, i);
      case Respond(i) => RespondKeeps(expected, replies, s, i);
      case Abort => AbortKeeps(expected, replies, s);
    }
  }

  lemma {:induction false} EveryRunKeeps(expected: nat, replies: seq<Frame>, steps: seq<Step>)
    ensures Invariant(expected, replies, Run(expected, replies, steps))
  {
    if steps == [] {
      StartHolds(expected, replies);
    } else {
      EveryRunKeeps(expected, replies, steps[..|steps| - 1]);
      StepKeeps(expected, replies, Run(expected, replies, steps[..|steps| - 1]), steps[|steps| - 1]);
    }
  }

  // ---- Theorems over every interleaving ----

  /** The merge runs at most once, and what it reads is every command's own reply, in command order. */
  lemma MergeSeesEveryReply(expected: nat, replies: seq<Frame>, steps: seq<Step>)
    ensures var s := Run(expected, replies, steps);
            s.merges == [] || (expected <= |replies| && s.merges == [replies[..expected]])
  {
    EveryRunKeeps(expected, replies, steps);
  }

  /** A caller never gets two answers, whether or not the writer gives up in between. */
  lemma AtMostOneAnswer(expected: nat, replies: seq<Frame>, steps: seq<Step>)
    ensures |Run(expected, replies, steps).answers| <= 1
  {
    EveryRunKeeps(expected, replies, steps);
  }

  lemma {:induction false} NoAbortNoCancel(expected: nat, replies: seq<Frame>, steps: seq<Step>)
    requires Abort !in steps
    ensures Canceled !in Run(expected, replies, steps).answers
  {
    if steps != [] {
      NoAbortNoCancel(expected, replies, steps[..|steps| - 1]);
    }
  }

  /** Once all tasks are done the caller has exactly one answer if there are as many replies as expected frames, and
    * that answer is the merge: the first error by index, else the concatenation in index order. */
  lemma CallerGetsTheMerge(expected: nat, replies: seq<Frame>, steps: seq<Step>)
    requires Abort !in steps && Finished(Run(expected, replies, steps))
    requires expected == |replies| > 0
    ensures exists merged :: Merges(replies, merged)
              && Run(expected, replies, steps).answers == [AnswerFor(merged)]
  {
    var s := Run(expected, replies, steps);
    EveryRunKeeps(expected, replies, steps);
    NoAbortNoCancel(expected, replies, steps);
    assert replies[..expected] == replies;
    MergeMeetsItsSpecification(replies);
    AnsweredWhenFinished(expected, replies, steps);
  }

  /** With any other number of frames expected, the caller is left without an answer exactly when more frames are
    * expected than commands reply; with fewer expected there is one answer, possibly an index error. */
  lemma AnsweredWhenFinished(expected: nat, replies: seq<Frame>, steps: seq<Step>)
    requires Abort !in steps && Finished(Run(expected, replies, steps))
    ensures |Run(expected, replies, steps).answers| == if |replies| == 0 || |replies| < expected then 0 else 1
  {
    var s := Run(expected, replies, steps);
    EveryRunKeeps(expected, replies, steps);
    NoAbortNoCancel(expected, replies, steps);
    AllCounted(expected, s);
    if |replies| < expected {
      Pigeonhole(s.order, |replies|);
    } else if expected == |replies| > 0 {
      forall i: nat | i < expected
        ensures i in s.order
      {
        assert HasCounted(s.tasks[i]);
      }
      SubsetSize(Indices(expected), Members(s.order));
      DistinctSize(s.order);
    } else if expected < |replies| {
      assert s.tasks[expected] == Done;
    }
  }

  // ---- Every task gets done ----

  /** How many steps a task has left at most. */
  function StepsLeft(t: Task): nat {
    match t
    case Waiting => 4
    case Stored => 3
    case Counted(_) => 2
    case Merged(_) => 1
    case Done => 0
  }

  /** The next step of task `i`. */
  function NextStep(t: Task, i: nat): Step {
    match t
    case Waiting => Store(i)
    case Stored => Count(i)
    case Counted(_) => MergeAll(i)
    case _ => Respond(i)
  }

  /** No task is ever stuck: its next step is possible, brings it closer to its end, and touches no other task. */
  lemma EveryTaskGoesOn(expected: nat, replies: seq<Frame>, s: State, i: nat)
    requires |replies| == |s.tasks| && i < |s.tasks| && s.tasks[i] != Done
    ensures Enabled(s, NextStep(s.tasks[i], i))
    ensures var s' := Apply(expected, replies, s, NextStep(s.tasks[i], i));
            && StepsLeft(s'.tasks[i]) < StepsLeft(s.tasks[i])
            && forall j :: 0 <= j < |s.tasks| && j != i ==> s'.tasks[j] == s.tasks[j]
  {
  }

  /** A writer that gives up leaves the caller with exactly one answer in every interleaving: its own if there was none. */
  lemma GivingUpAnswers(expected: nat, replies: seq<Frame>, steps: seq<Step>)
    ensures var s, s' := Run(expected, replies, steps), Run(expected, replies, steps + [Abort]);
            |s'.answers| == 1 && s'.answers == if s.answers == [] then [Canceled] else s.answers
  {
    assert (steps + [Abort])[..|steps|] == steps;
    EveryRunKeeps(expected, replies, steps);
  }

  // ---- One task as the client runs it ----

  /** All steps of task `i`, without interruption. */
  function Alone(expected: nat, replies: seq<Frame>, s: State, i: nat): State
    requires |replies| == |s.tasks|
  {
    var stored := Apply(expected, replies, s, Store(i));
    var counted := Apply(expected, replies, stored, Count(i));
    var merged := Apply(expected, replies, counted, MergeAll(i));
    Apply(expected, replies, merged, Respond(i))
  }

  class SharedBuffer {
    var frames: seq<Frame>
    var received: nat
    var tx: bool
    /** What reached the caller's channel. */
    ghost var answers: seq<Answer>

    constructor (expected: nat)
      ensures frames == Start(expected, 0).frames && received == 0 && tx && answers == []
    {
      frames, received, tx, answers := seq(expected, i => Null), 0, true, [];
    }

    ghost predicate Holds(s: State)
      reads this
    {
      frames == s.frames && received == s.received && tx == s.tx && answers == s.answers
    }

    /** `add_buffered_frame` */
    method AddBufferedFrame(index: nat, frame: Frame) returns (ok: bool)
      modifies `frames
      ensures ok <==> index < |old(frames)|
      ensures frames == if ok then old(frames)[index := frame] else old(frames)
    {
      ok := index < |frames|;
      if ok {
        frames := frames[index := frame];
      }
    }

    /** `respond_locked` */
    method Answer(answer: Answer)
      modifies `tx, `answers
      ensures !tx && answers == if old(tx) then old(answers) + [answer] else old(answers)
    {
      if tx {
        tx, answers := false, answers + [answer];
      }
    }

    /** `respond_buffer` does what the steps of its task do. */
    method RespondBuffer(expected: nat, index: nat, frame: Frame, ghost replies: seq<Frame>, ghost s: State)
      requires Holds(s) && |replies| == |s.tasks|
      requires index < |s.tasks| && s.tasks[index] == Waiting && replies[index] == frame
      modifies this
      ensures Holds(Alone(expected, replies, s, index)) && Alone(expected, replies, s, index).tasks == s.tasks[index := Done]
    {
      var ok := AddBufferedFrame(index, frame);
      if !ok {
        Answer(BadIndex);
        return;
      }
      received := received + 1;
      if received == expected {
        var merged := MergeMultipleFrames(frames);
        // the merge drains the buffer on every path, early return included
        frames := [];
        Answer(AnswerFor(merged));
      }
    }
  }

  // ---- Pipelines ----

  function Sum(counts: seq<nat>): nat {
    if counts == [] then 0 else Sum(counts[..|counts| - 1]) + counts[|counts| - 1]
  }

  lemma {:induction false} SumOfOnes(counts: seq<nat>)
    requires forall i :: 0 <= i < |counts| ==> counts[i] == 1
    ensures Sum(counts) == |counts|
  {
    if counts != [] {
      SumOfOnes(counts[..|counts| - 1]);
    }
  }

  /** `send_all`: the number of frames to expect, and the index each command stores its reply at. `counts` are the frames
    * each command expects. Commands with one reply each fill the buffer exactly, as `CallerGetsTheMerge` asks. */
  method PreparePipeline(counts: seq<nat>) returns (expected: nat, indices: seq<nat>)
    ensures expected == Sum(counts) && |indices| == |counts| && forall i :: 0 <= i < |indices| ==> indices[i] == i
    ensures (forall i :: 0 <= i < |counts| ==> counts[i] == 1) ==> expected == |indices|
  {
    expected, indices := 0, [];
    for i := 0 to |counts|
      invariant expected == Sum(counts[..i]) && |indices| == i && forall j :: 0 <= j < i ==> indices[j] == j
    {
      assert counts[..i + 1][..i] == counts[..i];
      expected := expected + counts[i];
      indices := indices + [i];
    }
    assert counts[..|counts|] == counts;
    if forall i :: 0 <= i < |counts| ==> counts[i] == 1 {
      SumOfOnes(counts);
    }
  }
}
