/** `transactions::run`: a queue of commands is sent to one server, one reply at a time, and then EXEC. Failures and
  * redirections start the whole queue again. The environment answers each question the run asks: which server owns the
  * first command, what became of a write, and whether reconnecting worked. */
module Transactions {
  import opened Prelude
  import opened Frames

  /** `Failure` is any error of the client or the server. A redirection of EXEC is passed on as an error. */
  datatype Error = Failure(text: string) | Redirected(ask: bool, slot: nat, server: Server) | Canceled

  datatype Response =
    | Proceed
    | Ask(slot: nat, server: Server)
    | Moved(slot: nat, server: Server)
    | TransactionError(error: Error)
    | TransactionResult(frame: Frame)
    | ConnectionClosed(error: Error)

  /** What became of one write: it failed, the reader task answered, or the channel was dropped without an answer. */
  datatype Outcome = WriteFailed(error: Error) | Replied(response: Response) | Dropped(error: Error)

  datatype Verdict = Retry(error: Error) | Redirect(ask: bool, slot: nat, server: Server) | Finished(frame: Frame) | Continue

  /** `write_command`: how the run reads an outcome. */
  function Judge(o: Outcome, abortOnError: bool): Result<Verdict, Error> {
    match o
    case WriteFailed(e) => Ok(Retry(e))
    case Dropped(e) => Err(e)
    case Replied(Proceed) => Ok(Continue)
    case Replied(Ask(slot, server)) => Ok(Redirect(true, slot, server))
    case Replied(Moved(slot, server)) => Ok(Redirect(false, slot, server))
    case Replied(ConnectionClosed(e)) => Ok(Retry(e))
    case Replied(TransactionError(e)) => if abortOnError then Err(e) else Ok(Continue)
    case Replied(TransactionResult(frame)) => Ok(Finished(frame))
  }

  datatype What = Watch | Queued(index: nat) | Exec | Discard

  datatype Hash = FromArguments | Custom(slot: nat)

  datatype Event =
    | Missing
    | Begin(server: Server, hash: Hash)
    | Write(server: Server, what: What)
    | Reply(what: What, response: Response)
    | Unanswered(what: What, error: Error)
    | Unwritten(server: Server, what: What, error: Error)

  /** The next command is sent only after the previous outcome is known. */
  function Exchange(server: Server, what: What, o: Outcome): seq<Event> {
    match o
    case WriteFailed(error) => [Unwritten(server, what, error)]
    case Dropped(error) => [Write(server, what), Unanswered(what, error)]
    case Replied(r) => [Write(server, what), Reply(what, r)]
  }

  /** The environment's answer to one question; each question reads its own field. */
  datatype Answer = Answer(owner: Option<Server>, outcome: Outcome, relink: Option<Error>)

  type Environment = nat -> Answer

  /** How one pass of the outer loop ends. */
  datatype End =
    | Restart(retried: bool)
    | Respond(result: Result<Frame, Error>)
    | GiveUp(error: Error)

  /** The transaction: `size` queued commands after the optional WATCH. */
  datatype Queue = Queue(size: nat, watched: bool, abortOnError: bool)

  // ---- What an attempt has to look like ----

  /** The commands before EXEC, in order. */
  function Script(q: Queue): seq<What> {
    (if q.watched then [Watch] else []) + Numbered(q.size)
  }

  function Numbered(n: nat): (r: seq<What>)
    ensures |r| == n && forall i :: 0 <= i < n ==> r[i] == Queued(i)
  {
    if n == 0 then [] else Numbered(n - 1) + [Queued(n - 1)]
  }

  /** The reply lets the transaction go on. With `abort_on_error` an error reply to a queued command does not. */
  predicate Accepted(q: Queue, what: What, r: Response) {
    r.Proceed? || (r.TransactionError? && !(q.abortOnError && what.Queued?))
  }

  /** `events` is `Begin` on `server`, then the given commands written to that server with nothing in between, each with an
    * accepted reply before the next write. */
  ghost predicate Accomplished(q: Queue, events: seq<Event>, server: Server, whats: seq<What>) {
    && |events| == 1 + 2 * |whats|
    && events[0].Begin? && events[0].server == server
    && forall j :: 0 <= j < |whats| ==>
         && events[1 + 2 * j] == Write(server, whats[j])
         && events[2 + 2 * j].Reply?
         && events[2 + 2 * j].what == whats[j]
         && Accepted(q, whats[j], events[2 + 2 * j].response)
  }

  predicate IsExec(e: Event) {
    e.Write? && e.what == Exec
  }

  predicate IsQueueError(e: Event) {
    e.Reply? && e.what.Queued? && e.response.TransactionError?
  }

  /** EXEC comes only after everything before it was accomplished, in this attempt and on the same server. */
  ghost predicate ExecIsEarned(q: Queue, events: seq<Event>) {
    forall i :: 0 <= i < |events| && IsExec(events[i]) ==>
      Accomplished(q, events[..i], events[i].server, Script(q))
  }

  ghost predicate HasQueueError(events: seq<Event>) {
    exists i :: 0 <= i < |events| && IsQueueError(events[i])
  }

  ghost predicate HasExec(events: seq<Event>) {
    exists i :: 0 <= i < |events| && IsExec(events[i])
  }

  /** With `abort_on_error`, an error reply to a queued command ends the run without EXEC. */
  ghost predicate AbortsOnError(q: Queue, events: seq<Event>, end: End) {
    q.abortOnError && HasQueueError(events) ==> end.Respond? && end.result.Err? && !HasExec(events)
  }

  /** The connection failed under a command other than DISCARD. */
  predicate IsBreak(e: Event) {
    || (e.Unwritten? && e.what != Discard)
    || (e.Reply? && e.what != Discard && e.response.ConnectionClosed?)
  }

  ghost predicate HasBreak(events: seq<Event>) {
    exists i :: 0 <= i < |events| && IsBreak(events[i])
  }

  /** Something other than the answer to a DISCARD kept the attempt from going on. */
  predicate IsObstacle(q: Queue, e: Event) {
    || e.Missing?
    || ((e.Unwritten? || e.Unanswered?) && e.what != Discard)
    || (e.Reply? && e.what != Discard && !Accepted(q, e.what, e.response))
  }

  /** EXEC is left out only for a cause. */
  ghost predicate ExecOrObstacle(q: Queue, events: seq<Event>) {
    HasExec(events) || exists i :: 0 <= i < |events| && IsObstacle(q, events[i])
  }

  /** A restart counts as a retry exactly if the connection failed, and a frame passed on to the caller is the last reply. */
  ghost predicate EndFits(events: seq<Event>, end: End) {
    && (end.Restart? ==> (end.retried <==> HasBreak(events)))
    && (end.Respond? && end.result.Ok? ==>
          events != [] && events[|events| - 1].Reply? &&
          events[|events| - 1].response == TransactionResult(end.result.value))
  }

  predicate IsRedirect(e: Event) {
    e.Reply? && (e.what == Watch || e.what.Queued?) && (e.response.Ask? || e.response.Moved?)
  }

  /** The slot of the last redirection the attempt followed. */
  function SlotOf(events: seq<Event>): Option<nat> {
    if events == [] then None
    else if IsRedirect(events[|events| - 1]) then Some(events[|events| - 1].response.slot)
    else SlotOf(events[..|events| - 1])
  }

  /** After a redirection every command is routed by its slot, otherwise as before. */
  ghost predicate Rehashed(events: seq<Event>, before: seq<Hash>, after: seq<Hash>) {
    && |after| == |before|
    && forall i :: 0 <= i < |after| ==>
         after[i] == match SlotOf(events) case None => before[i] case Some(slot) => Custom(slot)
  }

  // ---- What the end of an attempt means ----

  predicate OfDiscard(e: Event) {
    (e.Write? || e.Reply? || e.Unanswered? || e.Unwritten?) && e.what == Discard
  }

  /** The attempt without the DISCARD at its end. */
  function Trunk(events: seq<Event>): seq<Event> {
    if events == [] then []
    else if OfDiscard(events[|events| - 1]) then Trunk(events[..|events| - 1])
    else events
  }

  /** The event that decides how the attempt ends: the last one that is not about DISCARD. */
  function Decider(events: seq<Event>): Option<Event> {
    if Trunk(events) == [] then None else Some(Trunk(events)[|Trunk(events)| - 1])
  }

  /** The transaction was opened on the server, and did not finish there. */
  predicate LeftOpen(e: Event) {
    (e.Unwritten? || e.Unanswered? || (e.Reply? && !e.response.TransactionResult?)) && (e.what.Queued? || e.what == Exec)
  }

  /** The target of the redirection, or else the server of the attempt. */
  function DiscardTo(e: Event, server: Server): Server {
    if e.Reply? && e.what.Queued? && (e.response.Ask? || e.response.Moved?) then e.response.server else server
  }

  /** Exactly an attempt that left the transaction open ends with DISCARD, on the server it belongs to. */
  ghost predicate DiscardFits(events: seq<Event>) {
    match Decider(events)
    case None => events == []
    case Some(e) =>
      if LeftOpen(e)
      then events[0].Begin? && exists o :: events == Trunk(events) + Exchange(DiscardTo(e, events[0].server), Discard, o)
      else events == Trunk(events)
  }

  /** The attempt starts again without counting as a failure of the connection, unless the repair fails. */
  predicate Repaired(end: End) {
    end == Restart(false) || end.GiveUp?
  }

  /** The connection failed: another attempt if there is one left, unless the repair fails. */
  predicate Retried(error: Error, attempted: nat, max: nat, end: End) {
    if attempted >= max then end == Respond(Err(error)) else end == Restart(true) || end.GiveUp?
  }

  /** How the attempt has to end, by the event that decides it. */
  predicate Means(e: Event, attempted: nat, max: nat, end: End) {
    match e
    case Missing => Repaired(end)
    case Unwritten(_, _, error) => Retried(error, attempted, max, end)
    case Unanswered(_, error) => end == Respond(Err(error))
    case Reply(what, ConnectionClosed(error)) => Retried(error, attempted, max, end)
    case Reply(what, TransactionError(error)) => end == Respond(Err(error))
    case Reply(what, TransactionResult(frame)) => end == Respond(Ok(frame))
    case Reply(what, Proceed) => what == Exec && end == Respond(Err(Canceled))
    case Reply(what, Ask(slot, server)) =>
      if what == Exec then end == Respond(Err(Redirected(true, slot, server))) else Repaired(end)
    case Reply(what, Moved(slot, server)) =>
      if what == Exec then end == Respond(Err(Redirected(false, slot, server))) else Repaired(end)
    case _ => false
  }

  /** The attempt ends as its deciding event means. */
  ghost predicate Decided(events: seq<Event>, attempted: nat, max: nat, end: End) {
    Decider(events).Some? && Means(Decider(events).value, attempted, max, end)
  }

  /** What every attempt promises about itself and the way it ends. */
  ghost predicate Closed(q: Queue, events: seq<Event>, attempted: nat, max: nat, end: End) {
    && ExecIsEarned(q, events) && ExecOrObstacle(q, events) && AbortsOnError(q, events, end) && EndFits(events, end)
    && Decided(events, attempted, max, end) && DiscardFits(events)
    && (end.Respond? ==> (HasBreak(events) ==> attempted >= max) && SlotOf(events) == None)
    && (end == Restart(true) ==> attempted < max)
  }

  /** The repair before the next attempt was asked for last, and worked; or its error ends the run. */
  ghost predicate Repairs(env: Environment, pos: nat, end: End) {
    match end
    case Respond(_) => true
    case Restart(_) => pos > 0 && env(pos - 1).relink == None
    case GiveUp(error) => pos > 0 && env(pos - 1).relink == Some(error)
  }

  lemma DeciderAdds(events: seq<Event>, server: Server, what: What, o: Outcome)
    ensures var more := Exchange(server, what, o);
            && Trunk(events + more) == (if what == Discard then Trunk(events) else events + more)
            && Decider(events + more) == if what == Discard then Decider(events) else Some(more[|more| - 1])
  {
    var more := Exchange(server, what, o);
    if |more| == 1 {
      assert (events + more)[..|events|] == events;
    } else {
      assert (events + more)[..|events| + 1] == events + [more[0]];
      assert (events + [more[0]])[..|events|] == events;
    }
  }

  // ---- What the environment said ----

  /** The outcome that an event shows, if any. */
  function OutcomeOf(e: Event): Option<Outcome> {
    match e
    case Unwritten(_, _, error) => Some(WriteFailed(error))
    case Unanswered(_, error) => Some(Dropped(error))
    case Reply(_, response) => Some(Replied(response))
    case _ => None
  }

  /** The outcomes that the events show are the answers to the questions from `start` up to `pos`, each asked once and in
    * order. */
  ghost predicate Heeds(env: Environment, start: nat, pos: nat, events: seq<Event>) {
    if events == [] then pos == start
    else
      var before, last := events[..|events| - 1], events[|events| - 1];
      if OutcomeOf(last).None? then Heeds(env, start, pos, before)
      else pos > 0 && OutcomeOf(last).value == env(pos - 1).outcome && Heeds(env, start, pos - 1, before)
  }

  /** How many outcomes the events show. */
  function Asked(events: seq<Event>): nat {
    if events == [] then 0
    else Asked(events[..|events| - 1]) + if OutcomeOf(events[|events| - 1]).Some? then 1 else 0
  }

  lemma {:induction false} HeedsAsMany(env: Environment, start: nat, pos: nat, events: seq<Event>)
    requires Heeds(env, start, pos, events)
    ensures pos == start + Asked(events)
  {
    if events != [] {
      var last := events[|events| - 1];
      HeedsAsMany(env, start, if OutcomeOf(last).None? then pos else pos - 1, events[..|events| - 1]);
    }
  }

  /** Whether events go by the answers to the questions up to a given one. */
  type Record = (nat, seq<Event>) -> bool

  /** An attempt asks for its outcomes, and then for one repair unless it is answered. */
  ghost predicate Heard(heeds: Record, events: seq<Event>, end: End, pos: nat) {
    if end.Respond? then heeds(pos, events) else pos > 0 && heeds(pos - 1, events)
  }

  /** An exchange that goes by the next answer can be added. */
  ghost predicate Extends(env: Environment, heeds: Record) {
    forall pos: nat, events, server, what :: heeds(pos, events) ==>
      heeds(pos + 1, events + Exchange(server, what, env(pos).outcome))
  }

  ghost function Recorder(env: Environment, start: nat): Record {
    (pos: nat, events) => Heeds(env, start, pos, events)
  }

  lemma RecorderExtends(env: Environment, start: nat, first: Event)
    requires OutcomeOf(first) == None
    ensures Extends(env, Recorder(env, start)) && Recorder(env, start)(start, [first])
  {
    forall pos: nat, events, server, what | Recorder(env, start)(pos, events)
      ensures Recorder(env, start)(pos + 1, events + Exchange(server, what, env(pos).outcome))
    {
      HeedsOneMore(env, start, pos, events, server, what);
    }
    assert [first][..0] == [];
    assert Heeds(env, start, start, [first][..0]);
    assert Heeds(env, start, start, [first]);
  }

  lemma HeedsSnoc(env: Environment, start: nat, pos: nat, events: seq<Event>, e: Event)
    requires Heeds(env, start, pos, events) && (OutcomeOf(e).Some? ==> OutcomeOf(e).value == env(pos).outcome)
    ensures Heeds(env, start, if OutcomeOf(e).Some? then pos + 1 else pos, events + [e])
  {
    assert (events + [e])[..|events|] == events;
  }

  lemma HeedsOneMore(env: Environment, start: nat, pos: nat, events: seq<Event>, server: Server, what: What)
    requires Heeds(env, start, pos, events)
    ensures Heeds(env, start, pos + 1, events + Exchange(server, what, env(pos).outcome))
  {
    var more := Exchange(server, what, env(pos).outcome);
    HeedsSnoc(env, start, pos, events, more[0]);
    if |more| == 2 {
      HeedsSnoc(env, start, pos, events + [more[0]], more[1]);
      assert events + more == events + [more[0]] + [more[1]];
    } else {
      assert more == [more[0]];
    }
  }

  // ---- One pass of the outer loop ----

  /** Retry if attempts are left and reconnecting works. */
  function RetryEnd(attempted: nat, max: nat, error: Error, relink: Option<Error>): End {
    if attempted >= max then Respond(Err(error))
    else match relink
      case None => Restart(true)
      case Some(e) => GiveUp(e)
  }

  function RedirectEnd(relink: Option<Error>): End {
    match relink
    case None => Restart(false)
    case Some(e) => GiveUp(e)
  }

  /** How the attempt ends after a WATCH or a queued command that does not let it go on. */
  function StopEnd(v: Result<Verdict, Error>, attempted: nat, max: nat, relink: Option<Error>): End
    requires v != Ok(Continue)
  {
    match v
    case Err(error) => Respond(Err(error))
    case Ok(Finished(frame)) => Respond(Ok(frame))
    case Ok(Retry(error)) => RetryEnd(attempted, max, error, relink)
    case Ok(Redirect(_, _, _)) => RedirectEnd(relink)
  }

  /** How the attempt ends after EXEC. A redirection makes no sense here, and is passed on as an error. */
  function ExecEnd(v: Result<Verdict, Error>, attempted: nat, max: nat, relink: Option<Error>): End {
    match v
    case Err(error) => Respond(Err(error))
    case Ok(Finished(frame)) => Respond(Ok(frame))
    case Ok(Retry(error)) => RetryEnd(attempted, max, error, relink)
    case Ok(Redirect(ask, slot, target)) => Respond(Err(Redirected(ask, slot, target)))
    case Ok(Continue) => Respond(Err(Canceled))
  }

  /** Where DISCARD goes after a queued command that does not let the queue go on. */
  function DiscardTarget(v: Result<Verdict, Error>, server: Server): Option<Server> {
    match v
    case Ok(Finished(_)) => None
    case Ok(Redirect(_, _, target)) => Some(target)
    case _ => Some(server)
  }

  /** The events of that DISCARD. */
  function Discarded(target: Option<Server>, o: Outcome): seq<Event> {
    if target.Some? then Exchange(target.value, Discard, o) else []
  }

  /** `update_hash_slot` */
  method UpdateHashSlot(hashers: seq<Hash>, slot: nat) returns (r: seq<Hash>)
    ensures |r| == |hashers|
    ensures forall i :: 0 <= i < |r| ==> r[i] == Custom(slot)
  {
    r := hashers;
    for i := 0 to |hashers|
      invariant |r| == |hashers|
      invariant forall j :: 0 <= j < i ==> r[j] == Custom(slot)
    {
      r := r[i := Custom(slot)];
    }
  }

  lemma AddingKeepsEarned(q: Queue, events: seq<Event>, more: seq<Event>)
    requires ExecIsEarned(q, events) && !HasExec(more)
    ensures ExecIsEarned(q, events + more)
  {
    var all := events + more;
    assert forall k :: |events| <= k < |all| ==> all[k] == more[k - |events|];
    forall i | 0 <= i < |events| && IsExec(all[i])
      ensures Accomplished(q, all[..i], all[i].server, Script(q))
    {
      assert all[..i] == events[..i];
    }
  }

  /** Nothing yet went wrong in this attempt, and EXEC was not sent. */
  ghost predicate Clean(q: Queue, events: seq<Event>) {
    !HasExec(events) && !HasBreak(events) && (q.abortOnError ==> !HasQueueError(events))
  }

  lemma AccomplishOne(q: Queue, events: seq<Event>, server: Server, whats: seq<What>, what: What, o: Outcome)
    requires Accomplished(q, events, server, whats)
    requires Judge(o, q.abortOnError && what.Queued?) == Ok(Continue)
    ensures Accomplished(q, events + Exchange(server, what, o), server, whats + [what])
  {
  }

  lemma AccomplishedIsClean(q: Queue, events: seq<Event>, server: Server, whats: seq<What>)
    requires Accomplished(q, events, server, whats) && Exec !in whats
    ensures Clean(q, events)
  {
    forall i | 0 <= i < |events|
      ensures !IsExec(events[i]) && !IsBreak(events[i]) && (q.abortOnError ==> !IsQueueError(events[i]))
    {
      if i > 0 {
        var j := (i - 1) / 2;
        assert i == 1 + 2 * j || i == 2 + 2 * j;
        assert whats[j] in whats;
      }
    }
  }

  lemma Splits(a: seq<Event>, b: seq<Event>)
    ensures HasExec(a + b) <==> HasExec(a) || HasExec(b)
    ensures HasQueueError(a + b) <==> HasQueueError(a) || HasQueueError(b)
    ensures HasBreak(a + b) <==> HasBreak(a) || HasBreak(b)
  {
    assert forall i :: 0 <= i < |a| ==> a[i] == (a + b)[i];
    assert forall i :: 0 <= i < |b| ==> b[i] == (a + b)[|a| + i];
  }

  /** What one more exchange adds. */
  lemma ExchangeAdds(events: seq<Event>, server: Server, what: What, o: Outcome)
    ensures var all := events + Exchange(server, what, o);
            && (what != Exec ==> (HasExec(all) <==> HasExec(events)))
            && (HasQueueError(all) <==> HasQueueError(events) || (what.Queued? && o.Replied? && o.response.TransactionError?))
            && (HasBreak(all) <==>
                  HasBreak(events) || (what != Discard && Judge(o, false).Ok? && Judge(o, false).value.Retry?))
  {
    var more := Exchange(server, what, o);
    Splits(events, more);
    if what.Queued? && o.Replied? && o.response.TransactionError? {
      assert IsQueueError(more[1]);
    }
    if o.WriteFailed? {
      assert IsBreak(more[0]) <==> what != Discard;
    }
    if o.Replied? && o.response.ConnectionClosed? {
      assert IsBreak(more[1]) <==> what != Discard;
    }
  }

  /** An exchange that does not let the queue go on is an obstacle. */
  lemma StoppedByObstacle(q: Queue, events: seq<Event>, server: Server, what: What, o: Outcome)
    requires what != Discard && Judge(o, q.abortOnError && what.Queued?) != Ok(Continue)
    ensures ExecOrObstacle(q, events + Exchange(server, what, o))
  {
    var more := Exchange(server, what, o);
    var all := events + more;
    assert all[|all| - 1] == more[|more| - 1];
    assert IsObstacle(q, all[|all| - 1]);
  }

  lemma ObstacleStays(q: Queue, events: seq<Event>, more: seq<Event>)
    requires ExecOrObstacle(q, events)
    ensures ExecOrObstacle(q, events + more)
  {
    assert forall i :: 0 <= i < |events| ==> (events + more)[i] == events[i];
  }

  lemma SlotAdds(events: seq<Event>, server: Server, what: What, o: Outcome)
    ensures SlotOf(events + Exchange(server, what, o)) ==
            if (what == Watch || what.Queued?) && o.Replied? && (o.response.Ask? || o.response.Moved?)
            then Some(o.response.slot) else SlotOf(events)
  {
    var more := Exchange(server, what, o);
    if |more| == 1 {
      assert (events + more)[..|events|] == events;
    } else {
      assert (events + more)[..|events| + 1] == events + [more[0]];
      assert (events + [more[0]])[..|events|] == events;
    }
  }

  lemma {:induction false} AccomplishedHasNoSlot(q: Queue, events: seq<Event>, server: Server, whats: seq<What>)
    requires Accomplished(q, events, server, whats)
    ensures SlotOf(events) == None
  {
    if whats != [] {
      var n := |whats| - 1;
      var before := events[..1 + 2 * n];
      AccomplishedHasNoSlot(q, before, server, whats[..n]);
      assert events[..|events| - 1][..|events| - 2] == before;
      assert events[..|events| - 1][|events| - 2] == events[1 + 2 * n];
      assert events[|events| - 1] == events[2 + 2 * n];
    } else {
      assert events[..0] == [];
    }
  }

  /** What an attempt shows that stopped at WATCH or a queued command. */
  ghost predicate Shows(q: Queue, events: seq<Event>, v: Result<Verdict, Error>, attempted: nat, max: nat, end: End) {
    && !HasExec(events) && AbortsOnError(q, events, end) && ExecOrObstacle(q, events)
    && Decided(events, attempted, max, end)
    && (HasBreak(events) <==> v.Ok? && v.value.Retry?)
    && SlotOf(events) == (if v.Ok? && v.value.Redirect? then Some(v.value.slot) else None)
  }

  lemma StopShows(q: Queue, sent: seq<Event>, server: Server, what: What, o: Outcome, attempted: nat, max: nat,
                  relink: Option<Error>)
    requires Clean(q, sent) && SlotOf(sent) == None && (what == Watch || what.Queued?)
    requires Judge(o, q.abortOnError && what.Queued?) != Ok(Continue)
    ensures var v := Judge(o, q.abortOnError && what.Queued?);
            Shows(q, sent + Exchange(server, what, o), v, attempted, max, StopEnd(v, attempted, max, relink))
  {
    ExchangeAdds(sent, server, what, o);
    SlotAdds(sent, server, what, o);
    DeciderAdds(sent, server, what, o);
    StoppedByObstacle(q, sent, server, what, o);
  }

  /** What every attempt that stopped there promises. */
  lemma StopFits(q: Queue, events: seq<Event>, v: Result<Verdict, Error>, attempted: nat, max: nat, relink: Option<Error>)
    requires v != Ok(Continue) && Shows(q, events, v, attempted, max, StopEnd(v, attempted, max, relink)) && DiscardFits(events)
    requires v.Ok? && v.value.Finished? ==> events != [] && Decider(events) == Some(events[|events| - 1])
    ensures Closed(q, events, attempted, max, StopEnd(v, attempted, max, relink))
  {
  }

  lemma WatchStops(q: Queue, begun: seq<Event>, server: Server, o: Outcome, attempted: nat, max: nat, relink: Option<Error>)
    requires Accomplished(q, begun, server, []) && Judge(o, false) != Ok(Continue)
    ensures var v, events := Judge(o, false), begun + Exchange(server, Watch, o);
            && !HasExec(events) && Closed(q, events, attempted, max, StopEnd(v, attempted, max, relink))
            && SlotOf(events) == if v.Ok? && v.value.Redirect? then Some(v.value.slot) else None
  {
    var v, events := Judge(o, false), begun + Exchange(server, Watch, o);
    AccomplishedHasNoSlot(q, begun, server, []);
    AccomplishedIsClean(q, begun, server, []);
    StopShows(q, begun, server, Watch, o, attempted, max, relink);
    DeciderAdds(begun, server, Watch, o);
    assert events == Trunk(events);
    StopFits(q, events, v, attempted, max, relink);
  }

  /** The WATCH command before the queue. `end` is empty if the queue may follow. */
  method SendWatch(q: Queue, server: Server, begun: seq<Event>, hashers: seq<Hash>, attempted: nat, max: nat,
                   env: Environment, from: nat, ghost heeds: Record)
    returns (end: Option<End>, events: seq<Event>, hashed: seq<Hash>, pos: nat)
    requires Accomplished(q, begun, server, [])
    requires Extends(env, heeds) && heeds(from, begun)
    ensures if end.None? then heeds(pos, events) else Heard(heeds, events, end.value, pos)
    ensures end.None? ==> Accomplished(q, events, server, [Watch]) && hashed == hashers
    ensures end.Some? ==>
              && !HasExec(events) && Closed(q, events, attempted, max, end.value)
              && Rehashed(events, hashers, hashed) && Repairs(env, pos, end.value)
    ensures begun <= events
    ensures var o := env(from).outcome;
            && events == begun + Exchange(server, Watch, o)
            && end == if Judge(o, false) == Ok(Continue) then None
                      else Some(StopEnd(Judge(o, false), attempted, max, env(from + 1).relink))
  {
    var o := env(from).outcome;
    pos := from + 1;
    end, hashed := None, hashers;
    events := begun + Exchange(server, Watch, o);
    assert heeds(from + 1, events);
    if Judge(o, false) != Ok(Continue) {
      WatchStops(q, begun, server, o, attempted, max, env(pos).relink);
    }
    match Judge(o, false)
    case Ok(Continue) =>
      AccomplishOne(q, begun, server, [], Watch, o);
      assert [] + [Watch] == [Watch];
    case Ok(Retry(error)) =>
      end := Some(RetryEnd(attempted, max, error, env(pos).relink));
      if !end.value.Respond? {
        pos := pos + 1;
      }
    case Ok(Redirect(_, slot, target)) =>
      hashed := UpdateHashSlot(hashers, slot);
      end := Some(RedirectEnd(env(pos).relink));
      pos := pos + 1;
    case Ok(Finished(frame)) =>
      end := Some(Respond(Ok(frame)));
    case Err(error) =>
      end := Some(Respond(Err(error)));
  }

  /** DISCARD changes nothing of what the attempt before it shows. */
  lemma DiscardShows(q: Queue, before: seq<Event>, server: Server, o: Outcome, v: Result<Verdict, Error>, attempted: nat,
                     max: nat, end: End)
    requires Shows(q, before, v, attempted, max, end)
    ensures Shows(q, before + Exchange(server, Discard, o), v, attempted, max, end)
  {
    ExchangeAdds(before, server, Discard, o);
    SlotAdds(before, server, Discard, o);
    DeciderAdds(before, server, Discard, o);
    ObstacleStays(q, before, Exchange(server, Discard, o));
  }

  lemma LeavingShows(q: Queue, before: seq<Event>, server: Server, o: Outcome, v: Result<Verdict, Error>, attempted: nat,
                     max: nat, end: End)
    requires Shows(q, before, v, attempted, max, end)
    ensures Shows(q, before + Discarded(DiscardTarget(v, server), o), v, attempted, max, end)
  {
    var target := DiscardTarget(v, server);
    if target.Some? {
      DiscardShows(q, before, target.value, o, v, attempted, max, end);
    } else {
      assert before + [] == before;
    }
  }

  /** After a queued command that stops the queue, DISCARD goes where it has to. */
  lemma LeavingDiscards(q: Queue, sent: seq<Event>, server: Server, index: nat, o: Outcome, d: Outcome)
    requires Judge(o, q.abortOnError) != Ok(Continue) && sent != [] && sent[0].Begin? && sent[0].server == server
    ensures var v := Judge(o, q.abortOnError);
            var all := sent + Exchange(server, Queued(index), o) + Discarded(DiscardTarget(v, server), d);
            DiscardFits(all) && (v.Ok? && v.value.Finished? ==> Decider(all) == Some(all[|all| - 1]))
  {
    var before, target := sent + Exchange(server, Queued(index), o), DiscardTarget(Judge(o, q.abortOnError), server);
    DeciderAdds(sent, server, Queued(index), o);
    if target.Some? {
      DeciderAdds(before, target.value, Discard, d);
      assert DiscardTo(Decider(before).value, server) == target.value;
    } else {
      assert before + [] == before;
    }
  }

  lemma LeavingCloses(q: Queue, sent: seq<Event>, server: Server, index: nat, o: Outcome, d: Outcome, attempted: nat, max: nat,
                      relink: Option<Error>)
    requires Clean(q, sent) && SlotOf(sent) == None && sent != [] && sent[0].Begin? && sent[0].server == server
    requires Judge(o, q.abortOnError) != Ok(Continue)
    ensures var v := Judge(o, q.abortOnError);
            var all := sent + Exchange(server, Queued(index), o) + Discarded(DiscardTarget(v, server), d);
            && !HasExec(all) && Closed(q, all, attempted, max, StopEnd(v, attempted, max, relink))
            && SlotOf(all) == if v.Ok? && v.value.Redirect? then Some(v.value.slot) else None
  {
    var v, before := Judge(o, q.abortOnError), sent + Exchange(server, Queued(index), o);
    StopShows(q, sent, server, Queued(index), o, attempted, max, relink);
    LeavingShows(q, before, server, d, v, attempted, max, StopEnd(v, attempted, max, relink));
    LeavingDiscards(q, sent, server, index, o, d);
    StopFits(q, before + Discarded(DiscardTarget(v, server), d), v, attempted, max, relink);
  }

  /** What follows a queued command that does not let the queue go on. A redirected transaction sends DISCARD to the
    * redirection's target. */
  method LeaveQueue(q: Queue, server: Server, sent: seq<Event>, index: nat, o: Outcome, hashers: seq<Hash>, attempted: nat,
                    max: nat, env: Environment, from: nat, ghost heeds: Record)
    returns (end: End, events: seq<Event>, hashed: seq<Hash>, pos: nat)
    requires Judge(o, q.abortOnError) != Ok(Continue)
    requires Clean(q, sent) && SlotOf(sent) == None && sent != [] && sent[0].Begin? && sent[0].server == server
    requires Extends(env, heeds) && from > 0 && heeds(from - 1, sent) && o == env(from - 1).outcome
    ensures Heard(heeds, events, end, pos)
    ensures !HasExec(events) && Closed(q, events, attempted, max, end)
    ensures Rehashed(events, hashers, hashed) && Repairs(env, pos, end)
    ensures sent <= events
    ensures var v := Judge(o, q.abortOnError);
            && events == sent + Exchange(server, Queued(index), o) + Discarded(DiscardTarget(v, server), env(from).outcome)
            && end == StopEnd(v, attempted, max, env(from + 1).relink)
  {
    var v := Judge(o, q.abortOnError);
    events, pos, hashed := sent + Exchange(server, Queued(index), o), from, hashers;
    end := StopEnd(v, attempted, max, env(from + 1).relink);
    LeavingCloses(q, sent, server, index, o, env(from).outcome, attempted, max, env(from + 1).relink);
    assert heeds(from - 1 + 1, events);
    match v
    case Ok(Finished(_)) =>
      assert events + [] == events;
    case Ok(Retry(_)) =>
      events, pos := events + Exchange(server, Discard, env(from).outcome), if end.Respond? then from + 1 else from + 2;
    case Ok(Redirect(_, slot, target)) =>
      hashed := UpdateHashSlot(hashers, slot);
      events, pos := events + Exchange(target, Discard, env(from).outcome), from + 2;
    case Err(_) =>
      events, pos := events + Exchange(server, Discard, env(from).outcome), from + 1;
  }

  /** The queued commands, one reply at a time. `end` is empty if EXEC may follow. */
  method SendQueue(q: Queue, server: Server, begun: seq<Event>, ghost whats: seq<What>, hashers: seq<Hash>, attempted: nat,
                   max: nat, env: Environment, from: nat, ghost heeds: Record)
    returns (end: Option<End>, events: seq<Event>, hashed: seq<Hash>, pos: nat)
    requires Accomplished(q, begun, server, whats) && Exec !in whats
    requires Extends(env, heeds) && heeds(from, begun)
    ensures if end.None? then heeds(pos, events) else Heard(heeds, events, end.value, pos)
    ensures end.None? ==> Accomplished(q, events, server, whats + Numbered(q.size)) && hashed == hashers
    ensures end.Some? ==>
              && !HasExec(events) && Closed(q, events, attempted, max, end.value)
              && Rehashed(events, hashers, hashed) && Repairs(env, pos, end.value)
    ensures begun <= events
  {
    pos, end, events, hashed := from, None, begun, hashers;
    assert whats + Numbered(0) == whats;
    for idx := 0 to q.size
      invariant end == None && hashed == hashers
      invariant Accomplished(q, events, server, whats + Numbered(idx)) && begun <= events
      invariant heeds(pos, events)
    {
      var o := env(pos).outcome;
      pos := pos + 1;
      ghost var done := whats + Numbered(idx);
      if Judge(o, q.abortOnError) != Ok(Continue) {
        AccomplishedIsClean(q, events, server, done);
        AccomplishedHasNoSlot(q, events, server, done);
        var leave;
        leave, events, hashed, pos := LeaveQueue(q, server, events, idx, o, hashers, attempted, max, env, pos, heeds);
        return Some(leave), events, hashed, pos;
      }
      AccomplishOne(q, events, server, done, Queued(idx), o);
      assert heeds(pos - 1 + 1, events + Exchange(server, Queued(idx), o));
      assert done + [Queued(idx)] == whats + Numbered(idx + 1);
      events := events + Exchange(server, Queued(idx), o);
    }
  }

  /** EXEC, once the queue is through. Any answer but a result discards the transaction. */
  method SendExec(q: Queue, server: Server, sent: seq<Event>, attempted: nat, max: nat, env: Environment, from: nat,
                  ghost heeds: Record)
    returns (end: End, events: seq<Event>, pos: nat)
    requires Accomplished(q, sent, server, Script(q))
    requires Extends(env, heeds) && heeds(from, sent)
    ensures Heard(heeds, events, end, pos)
    ensures Closed(q, events, attempted, max, end) && Repairs(env, pos, end) && SlotOf(events) == None
    ensures sent < events
    ensures end.Respond? && end.result.Ok? <==> Results(env(from).outcome)
    ensures Results(env(from).outcome) ==> events == sent + Exchange(server, Exec, env(from).outcome)
    ensures !Results(env(from).outcome) ==>
              events == sent + Exchange(server, Exec, env(from).outcome) + Exchange(server, Discard, env(from + 1).outcome)
  {
    var o := env(from).outcome;
    ExecIsExecuted(q, sent, server, o);
    assert heeds(from + 1, sent + Exchange(server, Exec, o));
    end, events, pos := LeaveExec(q, server, sent + Exchange(server, Exec, o), o, attempted, max, env, from + 1, heeds);
  }

  predicate Results(o: Outcome) {
    o.Replied? && o.response.TransactionResult?
  }

  /** The attempt has just tried EXEC on its server, with this outcome. */
  ghost predicate Executed(q: Queue, events: seq<Event>, server: Server, o: Outcome) {
    && ExecAdds(q, events, o) && ExecOrObstacle(q, events)
    && events != [] && events[0].Begin? && events[0].server == server && Trunk(events) == events
    && events[|events| - 1] == LastOf(server, Exec, o)
  }

  function LastOf(server: Server, what: What, o: Outcome): Event {
    match o
    case WriteFailed(error) => Unwritten(server, what, error)
    case Dropped(error) => Unanswered(what, error)
    case Replied(r) => Reply(what, r)
  }

  lemma ExecIsExecuted(q: Queue, sent: seq<Event>, server: Server, o: Outcome)
    requires Accomplished(q, sent, server, Script(q))
    ensures Executed(q, sent + Exchange(server, Exec, o), server, o)
  {
    ExecTrace(q, sent, server, o);
    DeciderAdds(sent, server, Exec, o);
    ExecOrFailure(q, sent, server, o);
  }

  lemma ExecOrFailure(q: Queue, sent: seq<Event>, server: Server, o: Outcome)
    ensures ExecOrObstacle(q, sent + Exchange(server, Exec, o))
  {
    var all := sent + Exchange(server, Exec, o);
    assert IsExec(all[|sent|]) || IsObstacle(q, all[|sent|]);
  }

  /** What follows EXEC: nothing after a result, and DISCARD on the same server otherwise. */
  method LeaveExec(q: Queue, server: Server, executed: seq<Event>, o: Outcome, attempted: nat, max: nat, env: Environment,
                   from: nat, ghost heeds: Record)
    returns (end: End, events: seq<Event>, pos: nat)
    requires Executed(q, executed, server, o)
    requires Extends(env, heeds) && heeds(from, executed)
    ensures Heard(heeds, events, end, pos)
    ensures Closed(q, events, attempted, max, end) && Repairs(env, pos, end) && SlotOf(events) == None
    ensures executed <= events
    ensures end.Respond? && end.result.Ok? <==> Results(o)
    ensures Results(o) ==> events == executed
    ensures !Results(o) ==> events == executed + Exchange(server, Discard, env(from).outcome)
  {
    end := ExecEnd(Judge(o, true), attempted, max, env(from + 1).relink);
    events, pos := executed, from;
    if Results(o) {
      ExecCloses(q, executed, server, o, attempted, max, None);
    } else {
      events := executed + Exchange(server, Discard, env(from).outcome);
      pos := if end.Respond? then from + 1 else from + 2;
      ExecUnfinished(q, executed, server, o, env(from).outcome, attempted, max, env(from + 1).relink);
      assert heeds(from + 1, events);
    }
  }

  /** An attempt that got as far as EXEC promises what every attempt does. */
  lemma ExecCloses(q: Queue, all: seq<Event>, server: Server, o: Outcome, attempted: nat, max: nat, relink: Option<Error>)
    requires ExecAdds(q, all, o) && ExecOrObstacle(q, all) && DiscardFits(all) && Decider(all) == Some(LastOf(server, Exec, o))
    requires Results(o) ==> all != [] && Decider(all) == Some(all[|all| - 1])
    ensures Closed(q, all, attempted, max, ExecEnd(Judge(o, true), attempted, max, relink))
  {
  }

  lemma ExecUnfinished(q: Queue, executed: seq<Event>, server: Server, o: Outcome, d: Outcome, attempted: nat, max: nat,
                       relink: Option<Error>)
    requires Executed(q, executed, server, o) && !Results(o)
    ensures var events := executed + Exchange(server, Discard, d);
            Closed(q, events, attempted, max, ExecEnd(Judge(o, true), attempted, max, relink)) && SlotOf(events) == None
  {
    DiscardTrace(q, executed, server, o, d);
    ExecDiscards(executed, server, o, d);
    ObstacleStays(q, executed, Exchange(server, Discard, d));
    ExecCloses(q, executed + Exchange(server, Discard, d), server, o, attempted, max, relink);
  }

  /** After EXEC did not give a result, DISCARD goes to the same server. */
  lemma ExecDiscards(executed: seq<Event>, server: Server, o: Outcome, d: Outcome)
    requires executed != [] && executed[0].Begin? && executed[0].server == server && !Results(o)
    requires Trunk(executed) == executed && executed[|executed| - 1] == LastOf(server, Exec, o)
    ensures var all := executed + Exchange(server, Discard, d);
            DiscardFits(all) && Decider(all) == Some(LastOf(server, Exec, o))
  {
    DeciderAdds(executed, server, Discard, d);
    assert DiscardTo(Decider(executed).value, server) == server;
  }

  /** What EXEC adds to an attempt. */
  ghost predicate ExecAdds(q: Queue, all: seq<Event>, o: Outcome) {
    && ExecIsEarned(q, all) && SlotOf(all) == None && (q.abortOnError ==> !HasQueueError(all))
    && (HasBreak(all) <==> Judge(o, true).Ok? && Judge(o, true).value.Retry?)
  }

  lemma ExecTrace(q: Queue, sent: seq<Event>, server: Server, o: Outcome)
    requires Accomplished(q, sent, server, Script(q))
    ensures ExecAdds(q, sent + Exchange(server, Exec, o), o)
  {
    AccomplishedHasNoSlot(q, sent, server, Script(q));
    SlotAdds(sent, server, Exec, o);
    AccomplishedIsClean(q, sent, server, Script(q));
    ExchangeAdds(sent, server, Exec, o);
    ExecAfterScript(q, sent, server, o);
  }

  /** DISCARD after it adds nothing of that kind. */
  lemma DiscardTrace(q: Queue, events: seq<Event>, server: Server, o: Outcome, d: Outcome)
    requires ExecAdds(q, events, o)
    ensures ExecAdds(q, events + Exchange(server, Discard, d), o)
  {
    DiscardAfter(q, events, server, d);
  }

  lemma ExecAfterScript(q: Queue, sent: seq<Event>, server: Server, o: Outcome)
    requires Accomplished(q, sent, server, Script(q)) && !HasExec(sent)
    ensures ExecIsEarned(q, sent + Exchange(server, Exec, o))
  {
    var all := sent + Exchange(server, Exec, o);
    assert all[..|sent|] == sent;
    assert forall i :: 0 <= i < |sent| ==> all[i] == sent[i] && !IsExec(sent[i]);
  }

  lemma DiscardAfter(q: Queue, events: seq<Event>, server: Server, o: Outcome)
    requires ExecIsEarned(q, events)
    ensures ExecIsEarned(q, events + Exchange(server, Discard, o))
    ensures HasQueueError(events + Exchange(server, Discard, o)) <==> HasQueueError(events)
    ensures HasBreak(events + Exchange(server, Discard, o)) <==> HasBreak(events)
    ensures SlotOf(events + Exchange(server, Discard, o)) == SlotOf(events)
  {
    SlotAdds(events, server, Discard, o);
    AddingKeepsEarned(q, events, Exchange(server, Discard, o));
    ExchangeAdds(events, server, Discard, o);
  }

  /** The attempt begins on the server that owns the first command, or finds none. */
  function Opening(env: Environment, from: nat, hash: Hash): Event {
    match env(from).owner
    case None => Missing
    case Some(server) => Begin(server, hash)
  }

  /** One pass of the outer loop. */
  method Attempt(q: Queue, hashers: seq<Hash>, attempted: nat, max: nat, env: Environment, from: nat, ghost heeds: Record)
    returns (end: End, events: seq<Event>, hashed: seq<Hash>, pos: nat)
    requires |hashers| == q.size > 0
    requires Extends(env, heeds) && heeds(from + 1, [Opening(env, from, hashers[0])])
    ensures Closed(q, events, attempted, max, end) && Repairs(env, pos, end)
    ensures Rehashed(events, hashers, hashed)
    ensures events != [] && events[0] == Opening(env, from, hashers[0]) && Heard(heeds, events, end, pos)
  {
    pos, hashed := from + 1, hashers;
    var server;
    match env(from).owner {
      case None =>
        assert IsObstacle(q, [Missing][0]);
        return RedirectEnd(env(pos).relink), [Missing], hashers, pos + 1;
      case Some(owner) => server := owner;
    }
    events := [Begin(server, hashers[0])];
    ghost var whats: seq<What> := [];
    var stop: Option<End> := None;
    if q.watched {
      stop, events, hashed, pos := SendWatch(q, server, events, hashers, attempted, max, env, pos, heeds);
      if stop.Some? {
        return stop.value, events, hashed, pos;
      }
      whats := [Watch];
    }
    stop, events, hashed, pos := SendQueue(q, server, events, whats, hashers, attempted, max, env, pos, heeds);
    if stop.Some? {
      return stop.value, events, hashed, pos;
    }
    end, events, pos := SendExec(q, server, events, attempted, max, env, pos, heeds);
  }

  // ---- The whole run ----

  datatype Status = Running | Returned(result: Result<(), Error>)

  /** Attempts in which the connection failed. */
  ghost function Breaks(attempts: seq<seq<Event>>): nat {
    if attempts == [] then 0
    else Breaks(attempts[..|attempts| - 1]) + if HasBreak(attempts[|attempts| - 1]) then 1 else 0
  }

  /** How the first command is routed after these attempts: by the slot of the last redirection, if any. */
  function Routed(attempts: seq<seq<Event>>, initial: Hash): Hash {
    if attempts == [] then initial
    else match SlotOf(attempts[|attempts| - 1])
      case None => Routed(attempts[..|attempts| - 1], initial)
      case Some(slot) => Custom(slot)
  }

  ghost predicate EveryExecIsEarned(q: Queue, attempts: seq<seq<Event>>) {
    forall k :: 0 <= k < |attempts| ==>
      ExecIsEarned(q, attempts[k]) && ExecOrObstacle(q, attempts[k]) && DiscardFits(attempts[k])
  }

  /** With `abort_on_error`, nothing follows the attempt with an error reply to a queued command, and EXEC is not in it. */
  ghost predicate ErrorIsFinal(q: Queue, attempts: seq<seq<Event>>) {
    q.abortOnError ==> forall k :: 0 <= k < |attempts| && HasQueueError(attempts[k]) ==>
      k == |attempts| - 1 && !HasExec(attempts[k])
  }

  /** Every attempt is routed by the last redirection before it. */
  ghost predicate EveryAttemptIsRouted(attempts: seq<seq<Event>>, initial: Hash) {
    forall k :: 0 <= k < |attempts| ==>
      && attempts[k] != []
      && (attempts[k][0].Begin? ==> attempts[k][0].hash == Routed(attempts[..k], initial))
  }

  /** Exactly one answer if the run returned well, none if it failed or goes on; a frame answered is the last reply. */
  ghost predicate AnswersFit(status: Status, attempts: seq<seq<Event>>, answers: seq<Result<Frame, Error>>) {
    && |answers| == (if status == Returned(Ok(())) then 1 else 0)
    && (|answers| == 1 && attempts != [] ==> EndFits(attempts[|attempts| - 1], Respond(answers[0])))
  }

  lemma OneMore(attempts: seq<seq<Event>>, events: seq<Event>, initial: Hash)
    ensures Breaks(attempts + [events]) == Breaks(attempts) + if HasBreak(events) then 1 else 0
    ensures Routed(attempts + [events], initial) ==
            match SlotOf(events) case None => Routed(attempts, initial) case Some(slot) => Custom(slot)
    ensures EveryAttemptIsRouted(attempts, initial) && events != [] &&
            (events[0].Begin? ==> events[0].hash == Routed(attempts, initial)) ==>
              EveryAttemptIsRouted(attempts + [events], initial)
  {
    var all := attempts + [events];
    assert all[..|attempts|] == attempts;
    assert forall k :: 0 <= k < |attempts| ==> all[..k] == attempts[..k];
  }

  /** Each of these attempts had to be followed by another one. */
  ghost predicate EveryRestartIsDecided(attempts: seq<seq<Event>>, max: nat) {
    forall k :: 0 <= k < |attempts| ==> Decided(attempts[k], k, max, Restart(HasBreak(attempts[k])))
  }

  lemma RestartIsDecided(attempts: seq<seq<Event>>, events: seq<Event>, max: nat)
    requires EveryRestartIsDecided(attempts, max) && Decided(events, |attempts|, max, Restart(HasBreak(events)))
    ensures EveryRestartIsDecided(attempts + [events], max)
  {
  }

  /** The last attempt ended the run as it had to, and each one before it had to be followed by another. With an answer it met a
    * failed connection only if no attempts were left, and followed no redirection. Without one a repair failed. */
  ghost predicate WellEnded(attempts: seq<seq<Event>>, max: nat, env: Environment, end: End) {
    && attempts != []
    && EveryRestartIsDecided(attempts[..|attempts| - 1], max)
    && var last := attempts[|attempts| - 1];
       && Decided(last, |attempts| - 1, max, end)
       && (end.Respond? ==> (HasBreak(last) ==> |attempts| > max) && SlotOf(last) == None)
       && (end.GiveUp? ==> exists k: nat :: env(k).relink == Some(end.error))
  }

  lemma LastAttemptEnds(attempts: seq<seq<Event>>, events: seq<Event>, max: nat, env: Environment, end: End, pos: nat)
    requires EveryRestartIsDecided(attempts, max) && Decided(events, |attempts|, max, end) && Repairs(env, pos, end)
    requires end.Respond? ==> (HasBreak(events) ==> |attempts| >= max) && SlotOf(events) == None
    ensures WellEnded(attempts + [events], max, env, end)
  {
    assert (attempts + [events])[..|attempts|] == attempts;
  }

  /** The question that the next attempt starts with: each one so far asked for the owner, the outcomes and one repair. */
  function NextQuestion(attempts: seq<seq<Event>>): nat {
    if attempts == [] then 0
    else NextQuestion(attempts[..|attempts| - 1]) + Asked(attempts[|attempts| - 1]) + 2
  }

  /** Every question is asked once and in order, and every attempt goes by the answers to its own. */
  ghost predicate EveryAnswerIsHeeded(env: Environment, attempts: seq<seq<Event>>) {
    attempts == [] ||
    (var before, last := attempts[..|attempts| - 1], attempts[|attempts| - 1];
     var from := NextQuestion(before);
     && EveryAnswerIsHeeded(env, before)
     && last != [] && (exists hash :: last[0] == Opening(env, from, hash))
     && Heeds(env, from + 1, from + 1 + Asked(last), last))
  }

  lemma HeededOneMore(env: Environment, attempts: seq<seq<Event>>, events: seq<Event>, hash: Hash, end: End, pos: nat)
    requires EveryAnswerIsHeeded(env, attempts)
    requires events != [] && events[0] == Opening(env, NextQuestion(attempts), hash)
    requires Heard(Recorder(env, NextQuestion(attempts) + 1), events, end, pos)
    ensures EveryAnswerIsHeeded(env, attempts + [events])
    ensures !end.Respond? ==> pos == NextQuestion(attempts + [events])
  {
    assert (attempts + [events])[..|attempts|] == attempts;
    HeedsAsMany(env, NextQuestion(attempts) + 1, if end.Respond? then pos else pos - 1, events);
  }

  /** What holds while the run goes on. */
  ghost predicate SoFar(q: Queue, attempts: seq<seq<Event>>, initial: Hash, attempted: nat, max: nat) {
    && Breaks(attempts) <= attempted == |attempts| && Breaks(attempts) <= max && EveryRestartIsDecided(attempts, max)
    && EveryExecIsEarned(q, attempts) && EveryAttemptIsRouted(attempts, initial)
    && (q.abortOnError ==> NoQueueErrors(attempts))
  }

  ghost predicate NoQueueErrors(attempts: seq<seq<Event>>) {
    forall k :: 0 <= k < |attempts| ==> !HasQueueError(attempts[k])
  }

  lemma EarnedOneMore(q: Queue, attempts: seq<seq<Event>>, events: seq<Event>)
    requires EveryExecIsEarned(q, attempts) && ExecIsEarned(q, events) && ExecOrObstacle(q, events) && DiscardFits(events)
    ensures EveryExecIsEarned(q, attempts + [events])
  {
  }

  lemma NoErrorsOneMore(attempts: seq<seq<Event>>, events: seq<Event>)
    requires NoQueueErrors(attempts) && !HasQueueError(events)
    ensures NoQueueErrors(attempts + [events])
  {
  }

  /** What one attempt promises. */
  ghost predicate Attempted(q: Queue, events: seq<Event>, end: End, hash: Hash, attempted: nat, max: nat) {
    Closed(q, events, attempted, max, end) && events != [] && (events[0].Begin? ==> events[0].hash == hash)
  }

  lemma RestartGoesOn(q: Queue, attempts: seq<seq<Event>>, events: seq<Event>, end: End, initial: Hash, attempted: nat,
                      max: nat)
    requires SoFar(q, attempts, initial, attempted, max) && end.Restart?
    requires Attempted(q, events, end, Routed(attempts, initial), attempted, max)
    ensures SoFar(q, attempts + [events], initial, attempted + 1, max)
  {
    OneMore(attempts, events, initial);
    RestartIsDecided(attempts, events, max);
    EarnedOneMore(q, attempts, events);
    if q.abortOnError {
      NoErrorsOneMore(attempts, events);
    }
  }

  /** What holds when the run returns. */
  ghost predicate Finale(q: Queue, attempts: seq<seq<Event>>, initial: Hash, max: nat, env: Environment, end: End) {
    && EveryExecIsEarned(q, attempts) && ErrorIsFinal(q, attempts) && EveryAttemptIsRouted(attempts, initial)
    && WellEnded(attempts, max, env, end)
    && Breaks(attempts[..|attempts| - 1]) <= max && EndFits(attempts[|attempts| - 1], end)
  }

  lemma LastAttemptFits(q: Queue, attempts: seq<seq<Event>>, events: seq<Event>, end: End, initial: Hash, attempted: nat,
                        max: nat, env: Environment, pos: nat)
    requires SoFar(q, attempts, initial, attempted, max) && !end.Restart? && Repairs(env, pos, end)
    requires Attempted(q, events, end, Routed(attempts, initial), attempted, max)
    ensures Finale(q, attempts + [events], initial, max, env, end)
  {
    OneMore(attempts, events, initial);
    EarnedOneMore(q, attempts, events);
    LastAttemptEnds(attempts, events, max, env, end, pos);
    assert (attempts + [events])[..|attempts|] == attempts;
  }

  /** The run is between two attempts. */
  ghost predicate Between(q: Queue, attempts: seq<seq<Event>>, initial: Hash, max: nat, env: Environment, hash: Hash, pos: nat) {
    && SoFar(q, attempts, initial, |attempts|, max) && hash == Routed(attempts, initial)
    && EveryAnswerIsHeeded(env, attempts) && pos == NextQuestion(attempts)
  }

  /** What one more attempt leaves: the run goes on, or ends as it has to. */
  ghost predicate Advances(q: Queue, attempts: seq<seq<Event>>, initial: Hash, max: nat, env: Environment, end: End, hash: Hash,
                           pos: nat)
  {
    if end.Restart? then Between(q, attempts, initial, max, env, hash, pos)
    else Finale(q, attempts, initial, max, env, end) && EveryAnswerIsHeeded(env, attempts)
  }

  lemma AttemptAdvances(q: Queue, attempts: seq<seq<Event>>, events: seq<Event>, initial: Hash, max: nat, env: Environment,
                        end: End, hash: Hash, hash': Hash, from: nat, pos: nat)
    requires Between(q, attempts, initial, max, env, hash, from)
    requires Closed(q, events, |attempts|, max, end) && Repairs(env, pos, end)
    requires events != [] && events[0] == Opening(env, from, hash)
    requires Heard(Recorder(env, from + 1), events, end, pos)
    requires hash' == match SlotOf(events) case None => hash case Some(slot) => Custom(slot)
    ensures Advances(q, attempts + [events], initial, max, env, end, hash', pos)
  {
    HeededOneMore(env, attempts, events, hash, end, pos);
    if end.Restart? {
      OneMore(attempts, events, initial);
      RestartGoesOn(q, attempts, events, end, initial, |attempts|, max);
    } else {
      LastAttemptFits(q, attempts, events, end, initial, |attempts|, max, env, pos);
    }
  }

  /** One pass of the outer loop, added to those before it. */
  method NextAttempt(q: Queue, attempts: seq<seq<Event>>, initial: Hash, hashers: seq<Hash>, max: nat, env: Environment, from: nat)
    returns (end: End, all: seq<seq<Event>>, hashed: seq<Hash>, pos: nat)
    requires |hashers| == q.size > 0 && Between(q, attempts, initial, max, env, hashers[0], from)
    ensures |all| == |attempts| + 1 && |hashed| == q.size && Advances(q, all, initial, max, env, end, hashed[0], pos)
  {
    ghost var heeds := Recorder(env, from + 1);
    RecorderExtends(env, from + 1, Opening(env, from, hashers[0]));
    var events;
    end, events, hashed, pos := Attempt(q, hashers, |attempts|, max, env, from, heeds);
    AttemptAdvances(q, attempts, events, initial, max, env, end, hashers[0], hashed[0], from, pos);
    all := attempts + [events];
  }

  /** `run`, for any number of rounds of the outer loop. */
  method Run(q: Queue, initial: seq<Hash>, max: nat, env: Environment, rounds: nat)
    returns (status: Status, attempts: seq<seq<Event>>, answers: seq<Result<Frame, Error>>)
    requires |initial| == q.size
    ensures q.size == 0 ==> status == Returned(Ok(())) && attempts == [] && answers == [Ok(Null)]
    ensures EveryExecIsEarned(q, attempts)
    ensures ErrorIsFinal(q, attempts)
    ensures q.size > 0 ==> EveryAttemptIsRouted(attempts, initial[0])
    ensures AnswersFit(status, attempts, answers)
    ensures EveryAnswerIsHeeded(env, attempts)
    ensures attempts != [] ==> Breaks(attempts[..|attempts| - 1]) <= max
    ensures status == Running ==> EveryRestartIsDecided(attempts, max)
    ensures status == Returned(Ok(())) && q.size > 0 ==> WellEnded(attempts, max, env, Respond(answers[0]))
    ensures status.Returned? && status.result.Err? ==> WellEnded(attempts, max, env, GiveUp(status.result.error))
    ensures status == Running ==> |attempts| == rounds && Breaks(attempts) <= max
  {
    attempts, answers, status := [], [], Running;
    if q.size == 0 {
      return Returned(Ok(())), [], [Ok(Null)];
    }
    var pos, hashers := 0, initial;
    while |attempts| < rounds
      invariant |hashers| == q.size && |attempts| <= rounds
      invariant status == Running && answers == []
      invariant Between(q, attempts, initial[0], max, env, hashers[0], pos)
      decreases rounds - |attempts|
    {
      var end;
      end, attempts, hashers, pos := NextAttempt(q, attempts, initial[0], hashers, max, env, pos);
      match end {
        case Restart(_) =>
        case Respond(result) => return Returned(Ok(())), attempts, [result];
        case GiveUp(error) => return Returned(Err(error)), attempts, [];
      }
    }
  }
}
