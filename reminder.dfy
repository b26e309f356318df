/** `sendNewConnectionRequestReminder`: first email, a one-day sleep, then a reminder unless
    the request was accepted meanwhile. Each call of `Advance` is one resumption of the
    function by the workflow runner, given the connections table and the clock at that time. */
module ConnectionReminder {
  import opened Prelude
  import opened Mail

  /** A populated user reference: the fields the email reads. */
  datatype Person = Person(email: string, fullName: string)

  /** `Connection.findById(id).populate("from_user_id to_user_id")`; a reference to a
      deleted user populates as `null`. */
  datatype Connection = Connection(status: string, fromUser: Option<Person>, toUser: Option<Person>)

  const RequestSubject := "New Connection Request Received!"
  const AlreadyAccepted := "Connection request already accepted, no reminder needed."
  const ReminderSent := "Reminder email sent for pending connection request."

  /** Start: nothing done. FirstSent: step `send-connection-email` done. Sleeping: the
      `wait-for-24-hours` sleep is recorded. Done: the reminder step returned `message`.
      Failed: a step threw (a missing connection or user). */
  datatype Phase = Start | FirstSent | Sleeping(wakeAt: int) | Done(message: string) | Failed

  datatype Run = Run(connectionId: string, phase: Phase, outbox: seq<Email>)

  /** Step `send-connection-email`. The body reads both users' names, so either missing
      makes the step throw before anything is sent. */
  function SendConnectionEmail(conn: Option<Connection>, outbox: seq<Email>): (r: Result<seq<Email>>)
    ensures r.Ok? <==> conn.Some? && conn.value.toUser.Some? && conn.value.fromUser.Some?
    ensures r.Ok? ==> r.value == outbox + [Email(conn.value.toUser.value.email, RequestSubject)]
  {
    match conn
    case None => Err("Cannot read properties of null (reading 'to_user_id')")
    case Some(c) =>
      if c.toUser.None? || c.fromUser.None? then Err("Cannot read properties of null (reading 'full_name')")
      else Ok(outbox + [Email(c.toUser.value.email, RequestSubject)])
  }

  /** Step `send-connection-request-reminder`: its returned message and the outbox after it. */
  function SendReminder(conn: Option<Connection>, outbox: seq<Email>): (r: Result<(string, seq<Email>)>)
    ensures r.Err? <==> (conn.None? ||
              (conn.value.status != "accepted" && (conn.value.toUser.None? || conn.value.fromUser.None?)))
    ensures r.Ok? && conn.value.status == "accepted" ==> r.value == (AlreadyAccepted, outbox)
    ensures r.Ok? && conn.value.status != "accepted" ==>
              r.value == (ReminderSent, outbox + [Email(conn.value.toUser.value.email, RequestSubject)])
  {
    match conn
    case None => Err("Cannot read properties of null (reading 'status')")
    case Some(c) =>
      if c.status == "accepted" then Ok((AlreadyAccepted, outbox))
      else if c.toUser.None? || c.fromUser.None? then Err("Cannot read properties of null (reading 'full_name')")
      else Ok((ReminderSent, outbox + [Email(c.toUser.value.email, RequestSubject)]))
  }

  /** `Connection.findById(connectionId)`: the stored connection, or `null`. */
  function Lookup(connections: map<string, Connection>, id: string): (r: Option<Connection>)
    ensures r.Some? <==> id in connections
    ensures r.Some? ==> r.value == connections[id]
  {
    if id in connections then Some(connections[id]) else None
  }

  /** The phases in the order the handler's steps run them. */
  function Rank(p: Phase): nat
  {
    match p
    case Start => 0
    case FirstSent => 1
    case Sleeping(_) => 2
    case Done(_) => 3
    case Failed => 3
  }

  /** The transitions the handler's step sequence allows. */
  predicate Follows(p: Phase, q: Phase)
  {
    match p
    case Start => q == FirstSent || q == Failed
    case FirstSent => q.Sleeping?
    case Sleeping(_) => q.Done? || q == Failed
    case Done(_) => false
    case Failed => false
  }

  /** One resumption at time `now`. A run that is sleeping and not yet due stays as it is. */
  function Advance(run: Run, connections: map<string, Connection>, now: int): (r: Run)
    ensures r.connectionId == run.connectionId
    ensures r.phase == run.phase || Follows(run.phase, r.phase)
    ensures Rank(run.phase) <= Rank(r.phase)
    ensures |run.outbox| <= |r.outbox| <= |run.outbox| + 1 && r.outbox[..|run.outbox|] == run.outbox
    ensures run.phase.Sleeping? && now < run.phase.wakeAt ==> r == run
  {
    var conn := Lookup(connections, run.connectionId);
    match run.phase
    case Start =>
      (match SendConnectionEmail(conn, run.outbox)
       case Ok(o) => run.(phase := FirstSent, outbox := o)
       case Err(_) => run.(phase := Failed))
    case FirstSent => run.(phase := Sleeping(now + Day))
    case Sleeping(wakeAt) =>
      if now < wakeAt then run
      else
        (match SendReminder(conn, run.outbox)
         case Ok((message, o)) => run.(phase := Done(message), outbox := o)
         case Err(_) => run.(phase := Failed))
    case Done(_) => run
    case Failed => run
  }

  /** The first email goes out whatever the request's status. */
  lemma FirstEmailAlwaysSent(id: string, connections: map<string, Connection>, now: int)
    requires id in connections
    requires connections[id].toUser.Some? && connections[id].fromUser.Some?
    ensures Advance(Run(id, Start, []), connections, now) ==
              Run(id, FirstSent, [Email(connections[id].toUser.value.email, RequestSubject)])
  {
  }

  /** The sleep ends exactly one day after the resumption that reaches it. */
  lemma WakeIsOneDayLater(run: Run, connections: map<string, Connection>, now: int)
    requires run.phase == FirstSent
    ensures Advance(run, connections, now).phase == Sleeping(now + 86400000)
    ensures Advance(run, connections, now).outbox == run.outbox
  {
  }

  /** An email after the first one is sent only by a sleeping run whose wake time has passed;
      an accepted request gets none. */
  lemma ReminderOnlyAfterWake(run: Run, connections: map<string, Connection>, now: int)
    requires run.phase != Start
    requires |Advance(run, connections, now).outbox| > |run.outbox|
    ensures run.phase.Sleeping? && run.phase.wakeAt <= now
    ensures run.connectionId in connections && connections[run.connectionId].status != "accepted"
    ensures Advance(run, connections, now).phase == Done(ReminderSent)
  {
  }

  /** The clock and the connections table seen by one resumption. */
  datatype Tick = Tick(connections: map<string, Connection>, now: int)

  /** The run after the runner resumes it once per tick. */
  function RunAll(run: Run, ticks: seq<Tick>): Run
    decreases |ticks|
  {
    if ticks == [] then run else RunAll(Advance(run, ticks[0].connections, ticks[0].now), ticks[1..])
  }

  /** The emails a run can have sent by the time it reaches a phase. */
  function MailBound(p: Phase): nat
  {
    match p
    case Start => 0
    case FirstSent => 1
    case Sleeping(_) => 1
    case Done(_) => 2
    case Failed => 2
  }

  /** However the runner resumes it, a run never goes back a step, never withdraws mail, and
      from an empty outbox sends at most the two emails of its two steps. */
  lemma {:induction false} RunAllMonotone(run: Run, ticks: seq<Tick>)
    requires |run.outbox| <= MailBound(run.phase)
    decreases |ticks|
    ensures var r := RunAll(run, ticks);
      && Rank(run.phase) <= Rank(r.phase)
      && |run.outbox| <= |r.outbox| && r.outbox[..|run.outbox|] == run.outbox
      && |r.outbox| <= 2
  {
    if ticks != [] {
      var next := Advance(run, ticks[0].connections, ticks[0].now);
      RunAllMonotone(next, ticks[1..]);
      var r := RunAll(next, ticks[1..]);
      assert r.outbox[..|run.outbox|] == r.outbox[..|next.outbox|][..|run.outbox|];
    }
  }

  /** A request still pending after a day: the first email, the one-day sleep and the
      reminder, two emails to the recipient. */
  lemma PendingRequestReminded(id: string, c0: Connection, c2: Connection, t0: int, t1: int, t2: int)
    requires c0.toUser.Some? && c0.fromUser.Some?
    requires c2.toUser.Some? && c2.fromUser.Some? && c2.status != "accepted"
    requires t2 >= t1 + Day
    ensures RunAll(Run(id, Start, []), [Tick(map[id := c0], t0), Tick(map[], t1), Tick(map[id := c2], t2)])
         == Run(id, Done(ReminderSent), [Email(c0.toUser.value.email, RequestSubject),
                                         Email(c2.toUser.value.email, RequestSubject)])
  {
    var ticks := [Tick(map[id := c0], t0), Tick(map[], t1), Tick(map[id := c2], t2)];
    var r1 := Advance(Run(id, Start, []), map[id := c0], t0);
    var r2 := Advance(r1, map[], t1);
    var r3 := Advance(r2, map[id := c2], t2);
    assert r2.phase == Sleeping(t1 + Day);
    calc {
      RunAll(Run(id, Start, []), ticks);
      RunAll(r1, ticks[1..]);
      RunAll(r2, ticks[1..][1..]);
      RunAll(r3, ticks[1..][1..][1..]);
      { assert ticks[1..][1..][1..] == []; }
      r3;
    }
  }

  /** A request accepted within the day gets the first email only. */
  lemma AcceptedRequestNotReminded(id: string, c0: Connection, c2: Connection, t0: int, t1: int, t2: int)
    requires c0.toUser.Some? && c0.fromUser.Some?
    requires c2.status == "accepted"
    requires t2 >= t1 + Day
    ensures RunAll(Run(id, Start, []), [Tick(map[id := c0], t0), Tick(map[], t1), Tick(map[id := c2], t2)])
         == Run(id, Done(AlreadyAccepted), [Email(c0.toUser.value.email, RequestSubject)])
  {
    var ticks := [Tick(map[id := c0], t0), Tick(map[], t1), Tick(map[id := c2], t2)];
    var r1 := Advance(Run(id, Start, []), map[id := c0], t0);
    var r2 := Advance(r1, map[], t1);
    var r3 := Advance(r2, map[id := c2], t2);
    assert r2.phase == Sleeping(t1 + Day);
    calc {
      RunAll(Run(id, Start, []), ticks);
      RunAll(r1, ticks[1..]);
      RunAll(r2, ticks[1..][1..]);
      RunAll(r3, ticks[1..][1..][1..]);
      { assert ticks[1..][1..][1..] == []; }
      r3;
    }
  }
}
