/**
 What is taken was brought: every copy in a mailbox, every event a take answers and every
 expiry record is, field by field, an earlier delivery, publication or notice.
 */
module MailboxOrigins {
  import opened Options
  import opened Mailbox
  import opened MailboxProofs
  import opened MailboxRuns

  /** An instant and a delay, within the 64-bit instants. */
  function Sum(at: int, delay: int): int {
    var t := at + delay;
    if t > 0x7fff_ffff_ffff_ffff then 0x7fff_ffff_ffff_ffff else if t < -0x8000_0000_0000_0000 then -0x8000_0000_0000_0000 else t
  }

  /** The command brings an event of this type, data and envelope. */
  ghost predicate Carries(c: Command, type_: string, data: string, envelope: Option<Envelope>) {
    match c
    case DoDeliver(t, d, env, _) => type_ == t && data == d && envelope == Some(env)
    case DoPublish(t, d, env, _) => type_ == t && data == d && envelope == Some(env)
    case DoChildDone(child, d) => type_ == "done:" + child && data == d && envelope == None
    case DoChildWaiting(child, d) => type_ == "waiting:" + child && data == d && envelope == None
    case _ => false
  }

  /** How long it is kept: a delivery, and a publication to one run, for the given time. */
  ghost predicate Keeps(c: Command, at: int, expires: Option<int>) {
    match c
    case DoDeliver(_, _, _, keep) => expires == Some(Sum(at, keep))
    case DoPublish(_, _, _, kept) => expires == if kept.Some? then Some(Sum(at, kept.value)) else None
    case _ => expires == None
  }

  /** The copy is what the command, committed at `at`, brought. */
  ghost predicate Brings(c: Command, at: int, e: Copy) {
    Carries(c, e.type_, e.data, e.envelope) && Keeps(c, at, e.expires) && e.deliveredAt == at
  }

  ghost predicate SameEvent(a: Copy, b: Copy) {
    a.type_ == b.type_ && a.data == b.data && a.envelope == b.envelope && a.deliveredAt == b.deliveredAt && a.expires == b.expires
  }

  /** Copies stay what they were brought as; only the command's own is new. */
  ghost predicate Kept(b: Box, c: Command, now: int, after: Box) {
    forall n :: n in after.copies ==> (n in b.copies && SameEvent(after.copies[n], b.copies[n])) || Brings(c, now, after.copies[n])
  }

  lemma AcceptKept(b: Box, e: Copy, c: Command, now: int)
    requires Brings(c, now, e)
    ensures Kept(b, c, now, AcceptInto(b, e, now))
  {
  }

  lemma NotifyKept(b: Box, t: string, data: string, c: Command, now: int)
    requires Brings(c, now, NoticeCopy(t, data, now))
    ensures Kept(b, c, now, Notify(b, t, data, now))
  {
  }

  lemma ExpireKept(b: Box, c: Command, now: int)
    requires Valid(b)
    ensures Kept(b, c, now, Expire(b, now))
  {
    ExpireFrame(b, now);
  }

  lemma TakeKept(b: Box, k: string, types: seq<string>, now: int, c: Command)
    requires Valid(b)
    ensures Kept(b, c, now, TakeEvent(b, k, types, now).0)
  {
    if Caller(k) !in b.records {
      ExpireFrame(b, now);
      var b1 := Expire(b, now);
      TakeCopies(b1, k, types, TakeOrListen(b1, k, types).0);
    }
  }

  lemma TakeCopies(b: Box, k: string, types: seq<string>, after: Box)
    requires after == TakeOrListen(b, k, types).0
    ensures forall n :: n in after.copies ==> n in b.copies && SameEvent(after.copies[n], b.copies[n])
  {
    var found := Candidates(b.index, types);
    if found != {} && Least(found) in b.copies {
      TakeCopyParts(b, Least(found), k, types, after);
    }
  }

  lemma ArrivalKept(b: Box, c: Command, now: int)
    requires c.DoDeliver? || c.DoPublish? || c.DoChildDone? || c.DoChildWaiting?
    ensures Kept(b, c, now, Step(b, c, now))
  {
    match c
    case DoDeliver(t, data, env, keep) => AcceptKept(b, DeliveredCopy(t, data, env, now, keep), c, now);
    case DoPublish(t, data, env, kept) => AcceptKept(b, PublishedCopy(t, data, env, now, kept), c, now);
    case DoChildDone(child, data) => NotifyKept(b.(row := Close(b.row, [WAITING + child])), DONE + child, data, c, now);
    case DoChildWaiting(child, data) => NotifyKept(b, WAITING + child, data, c, now);
  }

  lemma StepKept(b: Box, c: Command, now: int)
    requires Valid(b)
    ensures Kept(b, c, now, Step(b, c, now))
  {
    if c.DoDeliver? || c.DoPublish? || c.DoChildDone? || c.DoChildWaiting? {
      ArrivalKept(b, c, now);
    } else if c.DoTake? {
      if b.row.state.Running? {
        TakeKept(b, c.k, c.types, now, c);
      }
    } else if c.DoSweepExpired? {
      ExpireKept(b, c, now);
    } else {
      OtherKept(b, c, now);
    }
  }

  lemma OtherKept(b: Box, c: Command, now: int)
    requires !c.DoDeliver? && !c.DoPublish? && !c.DoChildDone? && !c.DoChildWaiting? && !c.DoTake? && !c.DoSweepExpired?
    ensures Kept(b, c, now, Step(b, c, now))
  {
    if b.row.state.Running? && !c.DoOffer? && !c.DoForget? && !c.DoTerminate? && !c.DoClaim? {
      OwnerKept(b, c, now);
    }
  }

  lemma OwnerKept(b: Box, c: Command, now: int)
    requires !c.DoTake?
    ensures OwnerStep(b, c, now).copies == b.copies
  {
  }

  // ── whole histories ───────────────────────────────────────────────────────

  /** Some command of the history brought the event, at that command's instant. */
  ghost predicate Brought(commands: seq<(Command, int)>, e: Copy) {
    exists i :: 0 <= i < |commands| && Brings(commands[i].0, commands[i].1, e)
  }

  lemma {:induction false} CopiesBrought(start: int, commands: seq<(Command, int)>, n: nat)
    requires Clocked(start, commands) && n in RunAll(Fresh(start), commands).copies
    ensures Brought(commands, RunAll(Fresh(start), commands).copies[n])
    decreases |commands|
  {
    var last := |commands| - 1;
    var rest := commands[..last];
    assert forall i :: 0 <= i < |rest| ==> rest[i] == commands[i];
    var b, after := RunAll(Fresh(start), rest), RunAll(Fresh(start), commands);
    MailboxAlwaysRight(start, rest);
    StepKept(b, commands[last].0, commands[last].1);
    if !Brings(commands[last].0, commands[last].1, after.copies[n]) {
      CopiesBrought(start, rest, n);
      var i :| 0 <= i < |rest| && Brings(rest[i].0, rest[i].1, b.copies[n]);
      assert Brings(commands[i].0, commands[i].1, after.copies[n]);
    }
  }

  /** Some command of the history brought exactly this event. */
  ghost predicate WasBrought(commands: seq<(Command, int)>, event: Taken) {
    exists i :: 0 <= i < |commands| && commands[i].1 == event.at && Carries(commands[i].0, event.type_, event.data, event.envelope)
  }

  lemma RecordBrought(start: int, commands: seq<(Command, int)>, k: RecordKey)
    requires Clocked(start, commands) && k in RunAll(Fresh(start), commands).records
    ensures var r := RunAll(Fresh(start), commands).records[k]; !r.Other? ==> WasBrought(commands, r.event)
  {
    var b := RunAll(Fresh(start), commands);
    MailboxAlwaysRight(start, commands);
    if !b.records[k].Other? {
      var n :| n in b.copies && b.copies[n].consumed == Some(k);
      CopiesBrought(start, commands, n);
      var i :| 0 <= i < |commands| && Brings(commands[i].0, commands[i].1, b.copies[n]);
      assert RecordOf(k, b.records[k], n, b.copies[n]);
    }
  }

  /** After any history, what a take answers was brought by one of its commands: the type,
      the data, the instant and the envelope. */
  lemma TakenWasBrought(start: int, commands: seq<(Command, int)>, k: string, types: seq<string>, now: int)
    requires Clocked(start, commands)
    ensures var take := TakeEvent(RunAll(Fresh(start), commands), k, types, now).1;
            take.Took? ==> WasBrought(commands, take.event)
  {
    var b := RunAll(Fresh(start), commands);
    var (after, take) := TakeEvent(b, k, types, now);
    MailboxAlwaysRight(start, commands);
    if Caller(k) in b.records {
      RecordBrought(start, commands, Caller(k));
    } else if Takeable(b.copies, types, now) == {} {
      TakeNothing(b, k, types, now, after, take);
    } else {
      TakeIsFirst(b, k, types, now, after, take);
      var n := Least(Takeable(b.copies, types, now));
      CopiesBrought(start, commands, n);
      var i :| 0 <= i < |commands| && Brings(commands[i].0, commands[i].1, b.copies[n]);
      assert commands[i].1 == take.event.at;
    }
  }
}
