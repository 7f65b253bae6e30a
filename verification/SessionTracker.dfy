/** The session tracker (internal/server/session_tracker.go): what each section
    under its mutex does to the open session, the idle timer and the closed flag. */
module SessionTracker {
  import opened Common

  /** `number` is a history variable: the how-manieth recorded activity this is. */
  datatype Activity = Activity(number: nat, tool: string, line: string)

  datatype Session = Session(activities: seq<Activity>, lastCheckpointAt: int)

  /** What the mutex guards. `recorded` counts the activities recorded so far. */
  datatype Core = Core(current: Option<Session>, armed: bool, closed: bool, recorded: nat)

  const MAX_ACTIVITIES: nat := 1000

  datatype Timing = Timing(idleTimeout: int, checkpointInterval: int)

  // -------------------------------------------------------- value transitions

  predicate Repeats(s: Session, line: string) {
    s.activities != [] && s.activities[|s.activities| - 1].line == line
  }

  /** The oldest activities beyond the cap. */
  function Excess(activities: seq<Activity>): nat {
    if |activities| > MAX_ACTIVITIES then |activities| - MAX_ACTIVITIES else 0
  }

  function Opened(c: Core, now: int): Session {
    if c.current.Some? then c.current.value else Session([], now)
  }

  /** The open session after a tool call, before any checkpoint. */
  function Extended(c: Core, tool: string, line: string, now: int): Session {
    var s := Opened(c, now);
    if Repeats(s, line) then s
    else
      var all := s.activities + [Activity(c.recorded, tool, line)];
      s.(activities := all[Excess(all)..])
  }

  function Capped(c: Core, tool: string, line: string, now: int): seq<Activity> {
    var s := Opened(c, now);
    if Repeats(s, line) then []
    else
      var all := s.activities + [Activity(c.recorded, tool, line)];
      all[..Excess(all)]
  }

  predicate CheckpointDue(s: Session, timing: Timing, now: int) {
    timing.checkpointInterval > 0 && s.activities != [] && now - s.lastCheckpointAt >= timing.checkpointInterval
  }

  function AfterCall(c: Core, timing: Timing, tool: string, line: string, now: int): Core {
    if c.closed then c
    else
      var s := Extended(c, tool, line, now);
      Core(Some(if CheckpointDue(s, timing, now) then s.(lastCheckpointAt := now) else s), c.armed || timing.idleTimeout > 0, false,
           if Repeats(Opened(c, now), line) then c.recorded else c.recorded + 1)
  }

  function CheckpointOf(c: Core, timing: Timing, tool: string, line: string, now: int): Option<Session> {
    if c.closed then None
    else
      var s := Extended(c, tool, line, now);
      if CheckpointDue(s, timing, now) then Some(s) else None
  }

  function AfterTaking(c: Core): Core {
    c.(current := None, armed := false)
  }

  /** The summary lines of a notification, numbered from `first`. */
  function Noted(first: nat, tool: string, lines: seq<string>): (r: seq<Activity>)
    ensures |r| == |lines|
  {
    seq(|lines|, i requires 0 <= i < |lines| => Activity(first + i, tool, lines[i]))
  }

  /** The session a boundary notification flushes. */
  function WithNotes(c: Core, tool: string, lines: seq<string>, now: int): Session {
    var s := Opened(c, now);
    s.(activities := s.activities + Noted(c.recorded, tool, lines))
  }

  // ------------------------------------------------------------- the objects

  class TrackedSession {
    var activities: seq<Activity>
    var lastCheckpointAt: int

    constructor (now: int)
      ensures Value() == Session([], now)
    {
      activities, lastCheckpointAt := [], now;
    }

    function Value(): Session
      reads this
    {
      Session(activities, lastCheckpointAt)
    }

    method Clone() returns (clone: TrackedSession)
      ensures fresh(clone) && clone.Value() == Value()
    {
      clone := new TrackedSession(lastCheckpointAt);
      clone.activities := activities;
    }

    method Append(number: nat, tool: string, line: string)
      modifies this
      ensures Value() == old(Value()).(activities := old(activities) + [Activity(number, tool, line)])
    {
      activities := activities + [Activity(number, tool, line)];
    }
  }

  class Tracker {
    const timing: Timing
    var current: TrackedSession?
    var armed: bool
    var closed: bool
    var recorded: nat

    constructor (timing: Timing)
      ensures Value() == Core(None, false, false, 0)
    {
      this.timing := timing;
      current, armed, closed, recorded := null, false, false, 0;
    }

    ghost function Value(): Core
      reads this, current
    {
      Core(if current == null then None else Some(current.Value()), armed, closed, recorded)
    }

    /** The locked section of HandleToolCall. The checkpoint is a copy: later calls
        do not change it. */
    method HandleToolCall(tool: string, line: string, now: int) returns (checkpoint: TrackedSession?)
      modifies this, current
      ensures Value() == AfterCall(old(Value()), timing, tool, line, now)
      ensures checkpoint == null <==> CheckpointOf(old(Value()), timing, tool, line, now).None?
      ensures checkpoint != null ==>
        fresh(checkpoint) && checkpoint != current && Some(checkpoint.Value()) == CheckpointOf(old(Value()), timing, tool, line, now)
    {
      checkpoint := null;
      if closed {
        return;
      }
      if current == null {
        current := new TrackedSession(now);
      }
      Extend(current, tool, line);
      if timing.idleTimeout > 0 {
        armed := true;
      }
      if CheckpointDue(current.Value(), timing, now) {
        checkpoint := current.Clone();
        current.lastCheckpointAt := now;
      }
    }

    /** Appends the activity unless it repeats the last line, then applies the cap. */
    method Extend(session: TrackedSession, tool: string, line: string)
      modifies session, this`recorded
      ensures session.Value() ==
        Extended(Core(Some(old(session.Value())), armed, closed, old(recorded)), tool, line, session.lastCheckpointAt)
      ensures recorded == if Repeats(old(session.Value()), line) then old(recorded) else old(recorded) + 1
    {
      if |session.activities| == 0 || session.activities[|session.activities| - 1].line != line {
        session.Append(recorded, tool, line);
        recorded := recorded + 1;
        if |session.activities| > MAX_ACTIVITIES {
          session.activities := session.activities[|session.activities| - MAX_ACTIVITIES..];
        }
      }
    }

    method Reset()
      modifies this
      ensures Value() == AfterTaking(old(Value()))
    {
      armed := false;
      current := null;
    }

    /** The locked section of flushFromIdle: the session to flush, if any. */
    method TakeFromIdle() returns (session: TrackedSession?)
      modifies this
      ensures Value() == if old(closed) then old(Value()) else AfterTaking(old(Value()))
      ensures session == null <==> old(closed || current == null)
      ensures session != null ==> fresh(session) && Some(session.Value()) == old(Value()).current
    {
      session := null;
      if closed {
        return;
      }
      if current != null {
        session := current.Clone();
      }
      current, armed := null, false;
    }

    /** The locked section of flushWithNotification: the open session, or a new one,
        with the notification's lines added. */
    method TakeWithNotification(tool: string, lines: seq<string>, now: int) returns (session: TrackedSession?)
      modifies this
      ensures Value() == if old(closed) then old(Value()) else AfterTaking(old(Value())).(recorded := old(recorded) + |lines|)
      ensures session == null <==> old(closed)
      ensures session != null ==> fresh(session) && session.Value() == WithNotes(old(Value()), tool, lines, now)
    {
      session := null;
      if closed {
        return;
      }
      if current == null {
        session := new TrackedSession(now);
      } else {
        session := current.Clone();
      }
      ghost var start := session.Value();
      for i := 0 to |lines|
        invariant fresh(session) && session.lastCheckpointAt == start.lastCheckpointAt
        invariant session.activities == start.activities + Noted(recorded, tool, lines)[..i]
        invariant unchanged(this)
      {
        session.Append(recorded + i, tool, lines[i]);
      }
      recorded := recorded + |lines|;
      current, armed := null, false;
    }

    /** The locked section of Close: None when it was closed before. */
    method BeginClose() returns (first: bool, session: TrackedSession?)
      modifies this
      ensures first == !old(closed)
      ensures Value() == if first then AfterTaking(old(Value())).(closed := true) else old(Value())
      ensures session == null <==> !first || old(current == null)
      ensures session != null ==> fresh(session) && Some(session.Value()) == old(Value()).current
    {
      first, session := !closed, null;
      if closed {
        return;
      }
      closed := true;
      if current != null {
        session := current.Clone();
      }
      current, armed := null, false;
    }
  }
}
