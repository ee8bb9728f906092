/**
 The tag of one client stream (servereventstream.cpp) and the completions due for it. A write, a finish
 and the alarm of `endStream` all use the address of the stream as their tag; `kill` destroys the stream
 at the first completion in Finish. The notification that the stream is done has a tag of its own, but its
 function refers to the stream. PollSystem follows a stream up to its end; here what is outstanding is
 counted, to say exactly when nothing is left for the destroyed stream.
 */
module StreamTags {
  import opened Options
  import opened Polling
  import opened PollSystem

  /** `due` counts the completions under the stream's own tag; `notify` says that the notification is outstanding. */
  datatype Tag = Tag(phase: Phase, due: nat, notify: bool, alive: bool)

  /** What happens to a stream: `sendEvents`, `endStream`, the notification that it is done, and `process`. */
  datatype Event = BatchSent | Ended | Notified | Completed(ok: bool, authenticated: bool)

  /** The constructor asks for the notification and requests a call. */
  const CREATED: Tag := Tag(Connect, 1, true, true)

  predicate Enabled(t: Tag, e: Event) {
    t.alive && (e.Completed? ==> t.due > 0) && (e.Notified? ==> t.notify)
  }

  function After(t: Tag, e: Event): Tag
    requires Enabled(t, e)
  {
    match e
    case BatchSent => if t.phase == Write then t.(due := t.due + 1) else t
    case Ended => if t.phase == Write then t.(phase := Disconnect, due := t.due + 1) else t
    case Notified => t.(phase := Finish, notify := false)
    case Completed(ok, authenticated) =>
      match t.phase
      case Connect =>
        if !ok then t.(due := t.due - 1, alive := false)
        else if authenticated then t.(phase := Write, due := t.due - 1)
        else t.(phase := Finish)
      case Write => if ok then t.(due := t.due - 1) else t.(phase := Disconnect)
      case Disconnect => t.(phase := Finish)
      case Finish => t.(due := t.due - 1, alive := false)
  }

  /** A completion is due for a stream that no longer exists. */
  predicate Dangling(t: Tag) {
    !t.alive && t.due > 0
  }

  /** The notification is outstanding for a stream that no longer exists. */
  predicate NotificationDangles(t: Tag) {
    !t.alive && t.notify
  }

  // ----- whole lives -----

  predicate Runs(t: Tag, es: seq<Event>)
    decreases |es|
  {
    es == [] || (Enabled(t, es[0]) && Runs(After(t, es[0]), es[1..]))
  }

  function Run(t: Tag, es: seq<Event>): Tag
    requires Runs(t, es)
    decreases |es|
  {
    if es == [] then t else Run(After(t, es[0]), es[1..])
  }

  /**
   The completions that kill will leave behind, fixed by the event that ends the Write phase: the writes
   still outstanding then, less the one that a notification lets kill the stream.
   */
  function Strays(t: Tag, e: Event): int {
    if e.Ended? then t.due else t.due - 1
  }

  predicate LeavesWrite(t: Tag, e: Event) {
    t.phase == Write && (e.Ended? || e.Notified? || (e.Completed? && !e.ok))
  }

  /** The strays of a whole life; a stream that was never in Write has none. */
  function StraysOf(t: Tag, es: seq<Event>): int
    requires Runs(t, es)
    decreases |es|
  {
    if es == [] then 0
    else if LeavesWrite(t, es[0]) then Strays(t, es[0])
    else StraysOf(After(t, es[0]), es[1..])
  }

  /** On the way out: one completion kills the stream, the strays remain. */
  predicate Leaving(t: Tag, strays: int) {
    t.phase.Rank() >= Disconnect.Rank() && t.due == strays + if t.alive then 1 else 0
  }

  lemma {:induction false} LeavingRun(t: Tag, es: seq<Event>, strays: int)
    requires Runs(t, es) && Leaving(t, strays)
    ensures Leaving(Run(t, es), strays)
    decreases |es|
  {
    if es != [] {
      LeavingRun(After(t, es[0]), es[1..], strays);
    }
  }

  /** Before: one completion is due in Connect, and one after a client could not be admitted. */
  predicate Arriving(t: Tag) {
    match t.phase
    case Connect => t.due == if t.alive then 1 else 0
    case Write => t.alive
    case Disconnect => false
    case Finish => t.due == if t.alive then 1 else 0
  }

  lemma {:induction false} ArrivingRun(t: Tag, es: seq<Event>)
    requires Runs(t, es) && Arriving(t)
    ensures if Run(t, es).phase.Rank() >= Disconnect.Rank() then Leaving(Run(t, es), StraysOf(t, es))
            else Arriving(Run(t, es)) && StraysOf(t, es) == 0
    decreases |es|
  {
    if es != [] {
      if LeavesWrite(t, es[0]) {
        LeavingRun(After(t, es[0]), es[1..], Strays(t, es[0]));
      } else {
        ArrivingRun(After(t, es[0]), es[1..]);
      }
    }
  }

  /**
   Over every life of a stream, killing it leaves exactly the strays due, so no completion reaches the
   destroyed stream if and only if there are none.
   */
  lemma KillLeavesStrays(es: seq<Event>)
    requires Runs(CREATED, es) && !Run(CREATED, es).alive
    ensures Run(CREATED, es).due == StraysOf(CREATED, es)
    ensures Dangling(Run(CREATED, es)) <==> StraysOf(CREATED, es) != 0
  {
    ArrivingRun(CREATED, es);
  }

  lemma {:induction false} NotifiedOnce(t: Tag, es: seq<Event>)
    requires Runs(t, es)
    ensures Run(t, es).notify <==> t.notify && Notified !in es
    decreases |es|
  {
    if es != [] {
      NotifiedOnce(After(t, es[0]), es[1..]);
      assert es == [es[0]] + es[1..];
    }
  }

  /**
   Over every life of a stream, its notification reaches a destroyed stream if and only if the kill comes
   before it.
   */
  lemma NotificationDanglesExactlyWhen(es: seq<Event>)
    requires Runs(CREATED, es) && !Run(CREATED, es).alive
    ensures NotificationDangles(Run(CREATED, es)) <==> Notified !in es
  {
    NotifiedOnce(CREATED, es);
  }

  /** A client that cannot be admitted: the completion of its finish kills the stream, and may come first. */
  lemma RefusedBeforeNotified(ok: bool)
    ensures var es := [Completed(true, false), Completed(ok, false)];
            Runs(CREATED, es) && !Dangling(Run(CREATED, es)) && NotificationDangles(Run(CREATED, es))
  {
    RunTwo(CREATED, Completed(true, false), Completed(ok, false));
  }

  /**
   With at most one write outstanding, as gRPC demands, a stream leaves Write without strays exactly
   when it is ended with no write outstanding, or a write fails, or it is done while a write is outstanding.
   */
  lemma NoStraysExactlyWhen(t: Tag, e: Event)
    requires Enabled(t, e) && LeavesWrite(t, e) && t.due <= 1
    ensures Strays(t, e) == 0 <==> e.Completed? || (e.Ended? && t.due == 0) || (e.Notified? && t.due == 1)
  {
  }

  /** A stream that is done while no write is outstanding is never killed. */
  lemma DoneWhileIdleNeverKilled(t: Tag, es: seq<Event>)
    requires t.alive && t.notify && t.phase == Write && t.due == 0 && Runs(After(t, Notified), es)
    ensures Run(After(t, Notified), es).alive && Run(After(t, Notified), es).due == 0
  {
    LeavingRun(After(t, Notified), es, -1);
  }

  /** Ending a stream with one write outstanding leaves a completion for the destroyed stream. */
  lemma EndedDuringWriteDangles(ok: bool)
    ensures var es := [Completed(true, true), BatchSent, Ended, Completed(ok, false), Completed(true, false)];
            Runs(CREATED, es) && Dangling(Run(CREATED, es))
  {
    var t3 := Tag(Disconnect, 2, true, true);
    RunTwo(t3, Completed(ok, false), Completed(true, false));
    RunOne(Tag(Write, 1, true, true), Ended, [Completed(ok, false), Completed(true, false)]);
    RunOne(Tag(Write, 0, true, true), BatchSent, [Ended, Completed(ok, false), Completed(true, false)]);
    RunOne(CREATED, Completed(true, true), [BatchSent, Ended, Completed(ok, false), Completed(true, false)]);
  }

  lemma RunOne(t: Tag, e: Event, rest: seq<Event>)
    requires Enabled(t, e) && Runs(After(t, e), rest)
    ensures Runs(t, [e] + rest) && Run(t, [e] + rest) == Run(After(t, e), rest)
  {
    assert ([e] + rest)[1..] == rest;
  }

  lemma RunTwo(t: Tag, e: Event, f: Event)
    requires Enabled(t, e) && Enabled(After(t, e), f)
    ensures Runs(t, [e, f]) && Run(t, [e, f]) == After(After(t, e), f)
  {
    RunOne(After(t, e), f, []);
    RunOne(t, e, [f]);
    assert [f] + [] == [f] && [e] + [f] == [e, f];
  }

  // ----- the streams of the polling protocol -----

  /** What a step of the protocol is to one of its streams. */
  ghost function EventFor<S(!new), P(!new)>(w: World<S, P>, a: Action<S, P>, s: S): Option<Event> {
    match a
    case DeliverStream(t, ok, c) => if t == s then Some(Completed(ok, c.authenticated)) else None
    case DeliverDone(t) => if t == s then Some(Notified) else None
    case EndStreams => if s in w.shared.streams then Some(Ended) else None
    case DeliverAlarm(_, ok) =>
      if ok && EndsSession(w.shared, ok) && w.shared.plugin && w.shared.cq && s in w.shared.streams then Some(Ended)
      else None
    case PollerStep => if Sends(w) && s in w.shared.streams then Some(BatchSent) else None
    case _ => None
  }

  /** The protocol takes each of its streams through exactly such a life, up to its end. */
  lemma StepIsStreamEvent<S(!new), P(!new)>(w: World<S, P>, a: Action<S, P>, s: S, due: nat, notify: bool)
    requires PollSystem.Enabled(w, a) && s in w.tags
    requires (a.DeliverStream? ==> due > 0) && (a.DeliverDone? ==> notify)
    ensures var w', t := Step(w, a), Tag(w.tags[s].phase, due, notify, true);
            match EventFor(w, a, s)
            case None => s in w'.tags && w'.tags[s] == w.tags[s]
            case Some(e) =>
              var sent := if e.BatchSent? && t.phase == Write then 1 else 0;
              && (s in w'.tags <==> After(t, e).alive)
              && (s in w'.tags ==> w'.tags[s].phase == After(t, e).phase)
              && (s in w'.tags ==> |w'.tags[s].written| == |w.tags[s].written| + sent)
  {
    if a.PollerStep? {
      PollerMovesAudience(w);
      assert AudienceOf(Step(w, a)).tags == Step(w, a).tags;
    }
  }
}
