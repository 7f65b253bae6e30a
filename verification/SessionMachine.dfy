/** Every interleaving of tool calls, timers, notifications, checkpoint workers and
    the shutdown of a session tracker (internal/server/session_tracker.go): what
    becomes of each recorded activity, and what Close waits for. */
module SessionMachine {
  import opened Common
  import opened SessionTracker

  /** A checkpoint on its way: offered to the pool; holding a slot but not yet
      registered; writing; written, with its slot given back. */
  datatype Worker = Offering(session: Session) | Holding(session: Session) | Running(session: Session) | Released

  /** Close marks the tracker closed, waits for the workers, runs its own flush,
      and then cancels the tracker's context. */
  datatype Phase = Open | Draining(taken: Option<Session>) | Flushing(flush: Option<nat>) | Closed

  /** `flushes` are the sessions handed to a flush, `unfinished` those still being
      flushed; `discarded` and `capped` are history variables. */
  datatype State = State(core: Core, slots: nat, registered: nat, workers: map<nat, Worker>, phase: Phase,
                         flushes: seq<Session>, unfinished: set<nat>, discarded: seq<Session>, capped: seq<Activity>)

  datatype Step =
    | Call(tool: string, line: string, now: int, worker: nat)
    | Offer(worker: nat)
    | Register(worker: nat)
    | Saved(worker: nat)
    | Done(worker: nat)
    | ResetSession
    | IdleFires
    | Notify(tool: string, lines: seq<string>, now: int)
    | FinishFlush(flush: nat)
    | BeginClose
    | Drained
    | FinishClose

  const POOL: nat := 2

  predicate Enabled(s: State, step: Step) {
    match step
    case Call(_, _, _, w) => w !in s.workers
    case Offer(w) => w in s.workers && s.workers[w].Offering?
    case Register(w) => w in s.workers && s.workers[w].Holding?
    case Saved(w) => w in s.workers && s.workers[w].Running?
    case Done(w) => w in s.workers && s.workers[w].Released?
    case FinishFlush(k) => k in s.unfinished
    case BeginClose => !s.core.closed
    case Drained => s.phase.Draining? && s.registered == 0
    case FinishClose => s.phase.Flushing? && (s.phase.flush.Some? ==> s.phase.flush.value !in s.unfinished)
    case _ => true
  }

  function Added(sessions: seq<Session>, o: Option<Session>): seq<Session> {
    if o.Some? then sessions + [o.value] else sessions
  }

  /** Hands a session to a flush. */
  function Handed(s: State, o: Option<Session>): State {
    if o.None? then s else s.(flushes := s.flushes + [o.value], unfinished := s.unfinished + {|s.flushes|})
  }

  function Next(s: State, timing: Timing, step: Step): State
    requires Enabled(s, step)
  {
    match step
    case Call(tool, line, now, w) =>
      var checkpoint := CheckpointOf(s.core, timing, tool, line, now);
      s.(core := AfterCall(s.core, timing, tool, line, now),
         capped := if s.core.closed then s.capped else s.capped + Capped(s.core, tool, line, now),
         workers := if checkpoint.Some? then s.workers[w := Offering(checkpoint.value)] else s.workers)
    case Offer(w) =>
      if s.slots < POOL then s.(slots := s.slots + 1, workers := s.workers[w := Holding(s.workers[w].session)])
      else s.(workers := s.workers - {w})
    case Register(w) =>
      if s.core.closed then s.(slots := Less(s.slots), workers := s.workers - {w})
      else s.(registered := s.registered + 1, workers := s.workers[w := Running(s.workers[w].session)])
    case Saved(w) => s.(slots := Less(s.slots), workers := s.workers[w := Released])
    case Done(w) => s.(registered := Less(s.registered), workers := s.workers - {w})
    case ResetSession => s.(core := AfterTaking(s.core), discarded := Added(s.discarded, s.core.current))
    case IdleFires =>
      if s.core.closed then s else Handed(s.(core := AfterTaking(s.core)), s.core.current)
    case Notify(tool, lines, now) =>
      if s.core.closed then s
      else Handed(s.(core := AfterTaking(s.core).(recorded := s.core.recorded + |lines|)), Some(WithNotes(s.core, tool, lines, now)))
    case FinishFlush(k) => s.(unfinished := s.unfinished - {k})
    case BeginClose => s.(core := AfterTaking(s.core).(closed := true), phase := Draining(s.core.current))
    case Drained =>
      Handed(s, s.phase.taken).(phase := Flushing(if s.phase.taken.Some? then Some(|s.flushes|) else None))
    case FinishClose => s.(phase := Closed)
  }

  function Less(n: nat): nat {
    if n == 0 then 0 else n - 1
  }

  function Initial(): State {
    State(Core(None, false, false, 0), 0, 0, map[], Open, [], {}, [], [])
  }

  // -------------------------------------------------------------- the workers

  function Holders(workers: map<nat, Worker>): set<nat> {
    set w | w in workers && Holds(workers[w])
  }

  function Counted(workers: map<nat, Worker>): set<nat> {
    set w | w in workers && Counts(workers[w])
  }

  /** The semaphore counts the slots held and the wait group the workers registered;
      once Close has drained the group there is none, and none can come. */
  ghost predicate PoolInv(s: State) {
    && Tallied(s, s.slots, s.registered) && s.slots <= POOL
    && (s.phase.Open? <==> !s.core.closed)
    && (s.phase.Flushing? || s.phase.Closed? ==> s.registered == 0)
  }

  predicate Holds(w: Worker) {
    w.Holding? || w.Running?
  }

  predicate Counts(w: Worker) {
    w.Running? || w.Released?
  }

  function One(b: bool): nat {
    if b then 1 else 0
  }

  lemma OneApart(a: set<nat>, b: set<nat>, w: nat)
    requires forall k :: k != w ==> (k in a <==> k in b)
    ensures |b| == |a| - One(w in a) + One(w in b)
  {
    assert a - {w} == b - {w};
    assert |a| == |a - {w}| + One(w in a);
    assert |b| == |b - {w}| + One(w in b);
  }

  lemma Changed(workers: map<nat, Worker>, w: nat, to: Worker)
    ensures |Holders(workers[w := to])| == |Holders(workers)| - One(w in workers && Holds(workers[w])) + One(Holds(to))
    ensures |Counted(workers[w := to])| == |Counted(workers)| - One(w in workers && Counts(workers[w])) + One(Counts(to))
  {
    OneApart(Holders(workers), Holders(workers[w := to]), w);
    OneApart(Counted(workers), Counted(workers[w := to]), w);
  }

  lemma Gone(workers: map<nat, Worker>, w: nat)
    requires w in workers
    ensures |Holders(workers - {w})| == |Holders(workers)| - One(Holds(workers[w]))
    ensures |Counted(workers - {w})| == |Counted(workers)| - One(Counts(workers[w]))
  {
    OneApart(Holders(workers), Holders(workers - {w}), w);
    OneApart(Counted(workers), Counted(workers - {w}), w);
  }

  /** The counts of a worker table, without its sets. */
  ghost predicate Tallied(s: State, slots: nat, registered: nat) {
    slots == |Holders(s.workers)| && registered == |Counted(s.workers)|
  }

  lemma TallyAfter(s: State, timing: Timing, step: Step)
    requires Enabled(s, step) && Tallied(s, s.slots, s.registered)
    ensures Tallied(Next(s, timing, step), Next(s, timing, step).slots, Next(s, timing, step).registered)
  {
    match step
    case Call(tool, line, now, w) =>
      var checkpoint := CheckpointOf(s.core, timing, tool, line, now);
      if checkpoint.Some? { Changed(s.workers, w, Offering(checkpoint.value)); }
    case Offer(w) =>
      Changed(s.workers, w, Holding(s.workers[w].session));
      Gone(s.workers, w);
    case Register(w) =>
      Changed(s.workers, w, Running(s.workers[w].session));
      Gone(s.workers, w);
    case Saved(w) => Changed(s.workers, w, Released);
    case Done(w) => Gone(s.workers, w);
    case _ =>
  }

  lemma StepKeepsPool(s: State, timing: Timing, step: Step)
    requires PoolInv(s) && Enabled(s, step)
    ensures PoolInv(Next(s, timing, step))
  {
    TallyAfter(s, timing, step);
  }

  lemma RunningAreCounted(s: State, w: nat)
    requires PoolInv(s) && w in s.workers && s.workers[w].Running?
    ensures s.phase.Open? || s.phase.Draining?
    ensures s.registered > 0
  {
    assert w in Counted(s.workers);
  }

  // ----------------------------------------------------------- the activities

  /** How often activity number `k` occurs in a list, and in a list of sessions. */
  function Times(activities: seq<Activity>, k: nat): nat {
    if activities == [] then 0
    else Times(activities[..|activities| - 1], k) + One(activities[|activities| - 1].number == k)
  }

  function TimesIn(sessions: seq<Session>, k: nat): nat {
    if sessions == [] then 0 else TimesIn(sessions[..|sessions| - 1], k) + Times(sessions[|sessions| - 1].activities, k)
  }

  function TimesOpen(o: Option<Session>, k: nat): nat {
    if o.Some? then Times(o.value.activities, k) else 0
  }

  /** The session Close has taken and not yet handed to its flush. */
  function Taken(p: Phase): Option<Session> {
    if p.Draining? then p.taken else None
  }

  /** The places an activity can be in. */
  function Everywhere(s: State, k: nat): nat {
    TimesOpen(s.core.current, k) + TimesOpen(Taken(s.phase), k) + TimesIn(s.flushes, k) + TimesIn(s.discarded, k) + Times(s.capped, k)
  }

  ghost predicate Conserved(s: State) {
    && (forall k: nat :: Everywhere(s, k) == One(k < s.core.recorded))
    && (s.core.closed ==> s.core.current.None?)
    && (s.phase.Draining? ==> s.core.closed)
  }

  lemma {:induction false} TimesJoin(a: seq<Activity>, b: seq<Activity>, k: nat)
    ensures Times(a + b, k) == Times(a, k) + Times(b, k)
  {
    if b == [] {
      assert a + b == a;
    } else {
      TimesJoin(a, b[..|b| - 1], k);
      assert (a + b)[..|a + b| - 1] == a + b[..|b| - 1];
    }
  }

  lemma TimesMore(sessions: seq<Session>, s: Session, k: nat)
    ensures TimesIn(sessions + [s], k) == TimesIn(sessions, k) + Times(s.activities, k)
  {
    assert (sessions + [s])[..|sessions|] == sessions;
  }

  lemma {:induction false} TimesNoted(first: nat, tool: string, lines: seq<string>, k: nat)
    ensures Times(Noted(first, tool, lines), k) == One(first <= k < first + |lines|)
  {
    if lines != [] {
      var rest := lines[..|lines| - 1];
      TimesNoted(first, tool, rest, k);
      assert Noted(first, tool, lines)[..|lines| - 1] == Noted(first, tool, rest);
    }
  }

  /** A tool call puts the new activity into the session, or nowhere when it
      repeats the last one; the cap moves the oldest ones out. */
  lemma CallConserves(c: Core, tool: string, line: string, now: int, k: nat)
    ensures Times(Extended(c, tool, line, now).activities, k) + Times(Capped(c, tool, line, now), k) ==
            Times(Opened(c, now).activities, k) + One(!Repeats(Opened(c, now), line) && k == c.recorded)
  {
    var s := Opened(c, now);
    if !Repeats(s, line) {
      var added := Activity(c.recorded, tool, line);
      var all := s.activities + [added];
      TimesJoin(all[..Excess(all)], all[Excess(all)..], k);
      assert all[..Excess(all)] + all[Excess(all)..] == all;
      assert all[..|all| - 1] == s.activities;
    }
  }

  lemma CallParts(s: State, timing: Timing, tool: string, line: string, now: int, w: nat, k: nat)
    requires w !in s.workers && !s.core.closed
    ensures var t := Next(s, timing, Call(tool, line, now, w));
      && t.flushes == s.flushes && t.discarded == s.discarded && t.phase == s.phase
      && t.capped == s.capped + Capped(s.core, tool, line, now)
      && TimesOpen(t.core.current, k) == Times(Extended(s.core, tool, line, now).activities, k)
      && t.core.recorded == s.core.recorded + One(!Repeats(Opened(s.core, now), line))
    ensures TimesOpen(s.core.current, k) == Times(Opened(s.core, now).activities, k)
  {
  }

  lemma CallKeeps(s: State, timing: Timing, tool: string, line: string, now: int, w: nat, k: nat)
    requires Everywhere(s, k) == One(k < s.core.recorded) && w !in s.workers && !s.core.closed
    ensures var t := Next(s, timing, Call(tool, line, now, w)); Everywhere(t, k) == One(k < t.core.recorded)
  {
    var t := Next(s, timing, Call(tool, line, now, w));
    CallParts(s, timing, tool, line, now, w, k);
    assert Times(t.capped, k) == Times(s.capped, k) + Times(Capped(s.core, tool, line, now), k) by {
      TimesJoin(s.capped, Capped(s.core, tool, line, now), k);
    }
    CallConserves(s.core, tool, line, now, k);
  }

  lemma AddedAdds(sessions: seq<Session>, o: Option<Session>, k: nat)
    ensures TimesIn(Added(sessions, o), k) == TimesIn(sessions, k) + TimesOpen(o, k)
  {
    if o.Some? { TimesMore(sessions, o.value, k); }
  }

  lemma HandedAdds(s: State, o: Option<Session>, k: nat)
    ensures var t := Handed(s, o);
      && t.core == s.core && t.phase == s.phase && t.discarded == s.discarded && t.capped == s.capped
      && TimesIn(t.flushes, k) == TimesIn(s.flushes, k) + TimesOpen(o, k)
  {
    if o.Some? { TimesMore(s.flushes, o.value, k); }
  }

  lemma NotesAdd(c: Core, tool: string, lines: seq<string>, now: int, k: nat)
    ensures Times(WithNotes(c, tool, lines, now).activities, k) == TimesOpen(c.current, k) + One(c.recorded <= k < c.recorded + |lines|)
  {
    TimesJoin(Opened(c, now).activities, Noted(c.recorded, tool, lines), k);
    TimesNoted(c.recorded, tool, lines, k);
  }

  /** How the places change when `t` differs from `s` in them as stated. */
  lemma PlacesAdd(s: State, t: State, k: nat, open: nat, taken: nat, flushed: nat, discarded: nat)
    requires TimesOpen(t.core.current, k) == open && TimesOpen(Taken(t.phase), k) == taken
    requires TimesIn(t.flushes, k) == flushed && TimesIn(t.discarded, k) == discarded && t.capped == s.capped
    ensures Everywhere(t, k) == open + taken + flushed + discarded + Times(s.capped, k)
  {
  }

  lemma NotifyParts(s: State, timing: Timing, tool: string, lines: seq<string>, now: int, k: nat)
    requires !s.core.closed
    ensures var t := Next(s, timing, Notify(tool, lines, now));
      && t.core.current == None && t.core.recorded == s.core.recorded + |lines|
      && t.phase == s.phase && t.discarded == s.discarded && t.capped == s.capped
      && TimesIn(t.flushes, k) == TimesIn(s.flushes, k) + TimesOpen(s.core.current, k)
                                    + One(s.core.recorded <= k < s.core.recorded + |lines|)
  {
    NotesAdd(s.core, tool, lines, now, k);
    HandedAdds(s.(core := AfterTaking(s.core).(recorded := s.core.recorded + |lines|)), Some(WithNotes(s.core, tool, lines, now)), k);
  }

  lemma NotifyKeeps(s: State, timing: Timing, tool: string, lines: seq<string>, now: int, k: nat)
    requires Everywhere(s, k) == One(k < s.core.recorded) && !s.core.closed
    ensures var t := Next(s, timing, Notify(tool, lines, now)); Everywhere(t, k) == One(k < t.core.recorded)
  {
    var t := Next(s, timing, Notify(tool, lines, now));
    NotifyParts(s, timing, tool, lines, now, k);
    PlacesAdd(s, t, k, 0, TimesOpen(Taken(s.phase), k), TimesIn(t.flushes, k), TimesIn(s.discarded, k));
  }

  lemma ResetParts(s: State, timing: Timing, k: nat)
    ensures var t := Next(s, timing, ResetSession);
      && t.core == AfterTaking(s.core) && t.phase == s.phase && t.flushes == s.flushes && t.capped == s.capped
      && TimesIn(t.discarded, k) == TimesIn(s.discarded, k) + TimesOpen(s.core.current, k)
  {
    AddedAdds(s.discarded, s.core.current, k);
  }

  lemma ResetKeeps(s: State, timing: Timing, k: nat)
    requires Everywhere(s, k) == One(k < s.core.recorded)
    ensures var t := Next(s, timing, ResetSession); Everywhere(t, k) == One(k < t.core.recorded)
  {
    var t := Next(s, timing, ResetSession);
    ResetParts(s, timing, k);
    PlacesAdd(s, t, k, 0, TimesOpen(Taken(s.phase), k), TimesIn(s.flushes, k), TimesIn(t.discarded, k));
  }

  lemma IdleParts(s: State, timing: Timing, k: nat)
    requires !s.core.closed
    ensures var t := Next(s, timing, IdleFires);
      && t.core == AfterTaking(s.core) && t.phase == s.phase && t.discarded == s.discarded && t.capped == s.capped
      && TimesIn(t.flushes, k) == TimesIn(s.flushes, k) + TimesOpen(s.core.current, k)
  {
    HandedAdds(s.(core := AfterTaking(s.core)), s.core.current, k);
  }

  lemma IdleKeeps(s: State, timing: Timing, k: nat)
    requires Everywhere(s, k) == One(k < s.core.recorded)
    ensures var t := Next(s, timing, IdleFires); Everywhere(t, k) == One(k < t.core.recorded)
  {
    if !s.core.closed {
      var t := Next(s, timing, IdleFires);
      IdleParts(s, timing, k);
      PlacesAdd(s, t, k, 0, TimesOpen(Taken(s.phase), k), TimesIn(t.flushes, k), TimesIn(s.discarded, k));
    }
  }

  lemma DrainedParts(s: State, timing: Timing, k: nat)
    requires Enabled(s, Drained)
    ensures var t := Next(s, timing, Drained);
      && t.core == s.core && Taken(t.phase) == None && t.discarded == s.discarded && t.capped == s.capped
      && TimesIn(t.flushes, k) == TimesIn(s.flushes, k) + TimesOpen(Taken(s.phase), k)
  {
    HandedAdds(s, s.phase.taken, k);
  }

  lemma DrainedKeeps(s: State, timing: Timing, k: nat)
    requires Everywhere(s, k) == One(k < s.core.recorded) && Enabled(s, Drained)
    ensures var t := Next(s, timing, Drained); Everywhere(t, k) == One(k < t.core.recorded)
  {
    var t := Next(s, timing, Drained);
    DrainedParts(s, timing, k);
    PlacesAdd(s, t, k, TimesOpen(s.core.current, k), 0, TimesIn(t.flushes, k), TimesIn(s.discarded, k));
  }

  lemma StepConserves(s: State, timing: Timing, step: Step)
    requires PoolInv(s) && Conserved(s) && Enabled(s, step)
    ensures Conserved(Next(s, timing, step))
  {
    forall k: nat ensures Everywhere(Next(s, timing, step), k) == One(k < Next(s, timing, step).core.recorded) {
      assert Everywhere(s, k) == One(k < s.core.recorded);
      match step
      case Call(tool, line, now, w) => if !s.core.closed { CallKeeps(s, timing, tool, line, now, w, k); }
      case Notify(tool, lines, now) => if !s.core.closed { NotifyKeeps(s, timing, tool, lines, now, k); }
      case ResetSession => ResetKeeps(s, timing, k);
      case IdleFires => IdleKeeps(s, timing, k);
      case Drained => DrainedKeeps(s, timing, k);
      case _ =>
    }
  }

  // -------------------------------------------------------------------- runs

  ghost predicate Runs(states: seq<State>, steps: seq<Step>, timing: Timing) {
    && |states| == |steps| + 1 && states[0] == Initial()
    && forall i :: 0 <= i < |steps| ==> Enabled(states[i], steps[i]) && states[i + 1] == Next(states[i], timing, steps[i])
  }

  lemma {:induction false} RunKeeps(states: seq<State>, steps: seq<Step>, timing: Timing, i: nat)
    requires Runs(states, steps, timing) && i < |states|
    ensures PoolInv(states[i]) && Conserved(states[i])
  {
    if i > 0 {
      RunKeeps(states, steps, timing, i - 1);
      StepKeepsPool(states[i - 1], timing, steps[i - 1]);
      StepConserves(states[i - 1], timing, steps[i - 1]);
      assert states[(i - 1) + 1] == Next(states[i - 1], timing, steps[i - 1]);
    }
  }

  function InFlight(s: State): set<nat> {
    set w | w in s.workers && s.workers[w].Running?
  }

  /** At most two checkpoints of the pool are in flight, and none from the moment
      Close has drained them: it can neither be still running nor start later. A
      checkpoint that a notification forces runs in its caller, outside the pool; it
      is no step of this machine. */
  lemma CheckpointsBounded(states: seq<State>, steps: seq<Step>, timing: Timing, i: nat)
    requires Runs(states, steps, timing) && i < |states|
    ensures |InFlight(states[i])| <= POOL
    ensures InFlight(states[i]) != {} ==> states[i].phase.Open? || states[i].phase.Draining?
  {
    RunKeeps(states, steps, timing, i);
    var s := states[i];
    SubsetSize(InFlight(s), Holders(s.workers));
    if w :| w in InFlight(s) { RunningAreCounted(s, w); }
  }

  /** Each recorded activity is, at any moment, in exactly one place: the open
      session, the session Close holds, one flush, one reset, or beyond the cap;
      and it is there once. Numbers not yet given are nowhere. */
  lemma ExactlyOnePlace(states: seq<State>, steps: seq<Step>, timing: Timing, i: nat, k: nat)
    requires Runs(states, steps, timing) && i < |states|
    ensures Everywhere(states[i], k) == One(k < states[i].core.recorded)
  {
    RunKeeps(states, steps, timing, i);
  }

  lemma {:induction false} Present(activities: seq<Activity>, a: Activity)
    requires a in activities
    ensures Times(activities, a.number) >= 1
  {
    if a != activities[|activities| - 1] { Present(activities[..|activities| - 1], a); }
  }

  lemma {:induction false} WithinOne(sessions: seq<Session>, i: nat, k: nat)
    requires i < |sessions|
    ensures Times(sessions[i].activities, k) <= TimesIn(sessions, k)
  {
    if i < |sessions| - 1 { WithinOne(sessions[..|sessions| - 1], i, k); }
  }

  lemma {:induction false} WithinTwo(sessions: seq<Session>, i: nat, j: nat, k: nat)
    requires i < j < |sessions|
    ensures Times(sessions[i].activities, k) + Times(sessions[j].activities, k) <= TimesIn(sessions, k)
  {
    var rest := sessions[..|sessions| - 1];
    if j == |sessions| - 1 { WithinOne(rest, i, k); } else { WithinTwo(rest, i, j, k); }
  }

  /** No activity reaches two flushes. */
  lemma NeverFlushedTwice(states: seq<State>, steps: seq<Step>, timing: Timing, i: nat, f: nat, g: nat, a: Activity, b: Activity)
    requires Runs(states, steps, timing) && i < |states| && f < g < |states[i].flushes|
    requires a in states[i].flushes[f].activities && b in states[i].flushes[g].activities
    ensures a.number != b.number
  {
    var s := states[i];
    ExactlyOnePlace(states, steps, timing, i, a.number);
    WithinTwo(s.flushes, f, g, a.number);
    Present(s.flushes[f].activities, a);
    Present(s.flushes[g].activities, b);
  }

  /** Once Close has begun nothing is recorded any more, and the open session's
      activities are with its flush. */
  lemma ClosedRecordsNothing(s: State, timing: Timing, step: Step)
    requires Conserved(s) && PoolInv(s) && Enabled(s, step) && s.core.closed
    ensures Next(s, timing, step).core.closed && Next(s, timing, step).core.recorded == s.core.recorded
    ensures Next(s, timing, step).core.current.None?
  {
  }

  /** Flush number `f` began before moment `i` and has not been finished by then. */
  ghost predicate AtWork(states: seq<State>, steps: seq<Step>, i: nat, f: nat)
    requires |states| == |steps| + 1 && i < |states|
  {
    && f < |states[i].flushes|
    && forall j :: 0 <= j < i && f < |states[j].flushes| ==> steps[j] != FinishFlush(f)
  }

  lemma {:induction false} UnfinishedAre(states: seq<State>, steps: seq<Step>, timing: Timing, i: nat, f: nat)
    requires Runs(states, steps, timing) && i < |states|
    ensures f in states[i].unfinished <==> AtWork(states, steps, i, f)
  {
    if i > 0 {
      var s, t, step := states[i - 1], states[i], steps[i - 1];
      UnfinishedAre(states, steps, timing, i - 1, f);
      assert Enabled(s, step) && states[(i - 1) + 1] == Next(s, timing, step);
      FlushesAfter(s, timing, step, f);
      if f < |t.flushes| && f >= |s.flushes| { NotYet(states, steps, timing, i - 1, f); }
    }
  }

  /** A step hands over one session at most, as a new unfinished flush. */
  lemma FlushesAfter(s: State, timing: Timing, step: Step, f: nat)
    requires Enabled(s, step)
    ensures var t := Next(s, timing, step);
      && |s.flushes| <= |t.flushes| <= |s.flushes| + 1
      && (f in t.unfinished <==> (f in s.unfinished && step != FinishFlush(f)) || |s.flushes| <= f < |t.flushes|)
  {
  }

  lemma {:induction false} NotYet(states: seq<State>, steps: seq<Step>, timing: Timing, i: nat, f: nat)
    requires Runs(states, steps, timing) && i < |states| && f >= |states[i].flushes|
    ensures forall j :: 0 <= j <= i ==> f >= |states[j].flushes|
  {
    if i > 0 {
      assert Enabled(states[i - 1], steps[i - 1]) && states[(i - 1) + 1] == Next(states[i - 1], timing, steps[i - 1]);
      FlushesAfter(states[i - 1], timing, steps[i - 1], f);
      NotYet(states, steps, timing, i - 1, f);
    }
  }

  lemma {:induction false} FlushesGrow(states: seq<State>, steps: seq<Step>, timing: Timing, i: nat, k: nat)
    requires Runs(states, steps, timing) && i <= k < |states|
    ensures |states[i].flushes| <= |states[k].flushes|
  {
    if i < k {
      FlushesGrow(states, steps, timing, i, k - 1);
      assert Enabled(states[k - 1], steps[k - 1]) && states[(k - 1) + 1] == Next(states[k - 1], timing, steps[k - 1]);
      FlushesAfter(states[k - 1], timing, steps[k - 1], 0);
    }
  }

  /** Step `j` is an idle timer or a notification that starts flush number `f`. */
  ghost predicate Starts(states: seq<State>, steps: seq<Step>, j: nat, f: nat)
    requires |states| == |steps| + 1 && j < |steps|
  {
    (steps[j].IdleFires? || steps[j].Notify?) && f == |states[j].flushes| && |states[j + 1].flushes| == f + 1
  }

  ghost predicate StartedBefore(states: seq<State>, steps: seq<Step>, i: nat, f: nat)
    requires |states| == |steps| + 1 && i < |states|
  {
    exists j :: 0 <= j < i && Starts(states, steps, j, f)
  }

  /** A flush still at work was started so, or is the one Close is waiting for. */
  lemma {:induction false} UnfinishedFrom(states: seq<State>, steps: seq<Step>, timing: Timing, i: nat, f: nat)
    requires Runs(states, steps, timing) && i < |states| && f in states[i].unfinished
    ensures StartedBefore(states, steps, i, f) || states[i].phase == Flushing(Some(f))
  {
    if i > 0 {
      var s, t, step := states[i - 1], states[i], steps[i - 1];
      assert Enabled(s, step) && states[(i - 1) + 1] == Next(s, timing, step);
      RunKeeps(states, steps, timing, i - 1);
      FlushesAfter(s, timing, step, f);
      if f in s.unfinished && step != FinishFlush(f) {
        UnfinishedFrom(states, steps, timing, i - 1, f);
        if j :| 0 <= j < i - 1 && Starts(states, steps, j, f) { assert Starts(states, steps, j, f); }
      } else if step.IdleFires? || step.Notify? {
        assert Starts(states, steps, i - 1, f);
      }
    }
  }

  /** Close waits for the checkpoints and its own flush only. When it has returned no
      flush is at work exactly if every one that the idle timer or a notification
      started has been finished. */
  lemma NoneAtWorkIff(states: seq<State>, steps: seq<Step>, timing: Timing, i: nat)
    requires Runs(states, steps, timing) && i < |states| && states[i].phase.Closed?
    ensures states[i].unfinished == {} <==>
            forall j: nat, f: nat :: j < i && Starts(states, steps, j, f) ==> exists k :: j < k < i && steps[k] == FinishFlush(f)
  {
    if f :| f in states[i].unfinished {
      UnfinishedFrom(states, steps, timing, i, f);
      UnfinishedAre(states, steps, timing, i, f);
      var j :| 0 <= j < i && Starts(states, steps, j, f);
      forall k | j < k < i ensures steps[k] != FinishFlush(f) { FlushesGrow(states, steps, timing, j + 1, k); }
    } else {
      forall j: nat, f: nat | j < i && Starts(states, steps, j, f) ensures exists k :: j < k < i && steps[k] == FinishFlush(f) {
        UnfinishedAre(states, steps, timing, i, f);
        FlushesGrow(states, steps, timing, j + 1, i);
        var k :| 0 <= k < i && f < |states[k].flushes| && steps[k] == FinishFlush(f);
        if k <= j { FlushesGrow(states, steps, timing, k, j); }
      }
    }
  }

  /** Such a run: a flush started by the idle timer is still at work when Close has
      returned. */
  lemma IdleFlushOutlivesClose() returns (states: seq<State>, steps: seq<Step>, timing: Timing)
    ensures Runs(states, steps, timing)
    ensures states[|steps|].phase.Closed? && states[|steps|].unfinished != {}
  {
    timing := Timing(10, 0);
    steps := [Call("recall_memories", "recall", 0, 0), IdleFires, BeginClose, Drained, FinishClose];
    var s1 := Next(Initial(), timing, steps[0]);
    var s2 := Next(s1, timing, steps[1]);
    var s3 := Next(s2, timing, steps[2]);
    assert s3.phase == Draining(None) && s3.registered == 0 && s3.unfinished == {0};
    var s4 := Next(s3, timing, steps[3]);
    states := [Initial(), s1, s2, s3, s4, Next(s4, timing, steps[4])];
  }
}
