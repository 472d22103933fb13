/**
 The mailbox and the run rows are about one row: what a step does to the mailbox fields
 of a run row is what it does to the row of the run's mailbox.
 */
module RunMail {
  import opened Options
  import opened Runs
  import M = Mailbox

  function StateOf(s: State): M.RunState {
    match s
    case Ready => M.Ready
    case Running => M.Running
    case Waiting => M.Waiting
    case _ => M.Ended
  }

  /** The run row and the mailbox's row agree. Only the wake-up of a ready or waiting run
      is read. */
  ghost predicate Holds(r: Run, b: M.Box) {
    && b.row.state == StateOf(r.life.state) && (Live(r) <==> !b.row.state.Ended?)
    && (b.row.state.Ready? || b.row.state.Waiting? ==> b.row.wake == r.life.wake)
    && SameMail(r.mail, b)
    && b.row.evidence == r.evidence
  }

  ghost predicate SameMail(m: Mail, b: M.Box) {
    && b.row.awaits == m.awaits && b.row.listeners == m.listeners && b.row.subscriptions == m.subscriptions
    && b.row.addressed == m.addressed && b.row.pending.Keys == m.pending && b.row.mailbox == m.mailbox
    && b.types.Keys == m.seen
  }

  lemma WakesAlike(m: Mail, b: M.Box, t: string)
    requires SameMail(m, b)
    ensures NoticeWakes(m, t) <==> M.Wakes(b.row, t, false)
    ensures Listened(m, t) <==> M.Named(b.row.listeners, t)
  {
    assert forall k :: IsChildKey(k) <==> M.IsChild(k);
  }

  lemma PushedMail(m: Mail, b: M.Box, t: string, data: string, now: int)
    requires SameMail(m, b)
    ensures SameMail(m.(pending := m.pending + {t}, seen := m.seen + {t}), M.Push(b, M.NoticeCopy(t, data, now)))
  {
    var e := M.NoticeCopy(t, data, now);
    assert M.CountUp(b.row.pending, e).Keys == b.row.pending.Keys + {t};
    assert M.Push(b, e).types.Keys == b.types.Keys + {t};
  }

  /** A notice changes both alike. */
  lemma NoticeHolds(r: Run, b: M.Box, t: string, data: string, now: int)
    requires Holds(r, b)
    ensures Holds(Notified(r, t, now), M.Notify(b, t, data, now))
  {
    if Live(r) && t in r.mail.awaits && t !in r.mail.pending {
      WakesAlike(r.mail, b, t);
      var woken := if M.Wakes(b.row, t, false) then b.(row := b.row.(wake := now)) else b;
      PushedMail(r.mail, woken, t, data, now);
    }
  }

  lemma CloseHolds(m: Mail, b: M.Box, t: string)
    requires SameMail(m, b)
    ensures SameMail(Close(m, t), b.(row := M.Close(b.row, [t])))
  {
    WakesAlike(m, b, t);
    var closed := M.Close(b.row, [t]);
    if Listened(m, t) {
      assert closed.awaits == b.row.awaits && closed.addressed == b.row.addressed;
    } else {
      assert closed.awaits == b.row.awaits - {t} && closed.addressed == b.row.addressed - {t};
    }
  }

  /** The closed registration, as the store writes it back only if it changed. */
  lemma ClosedHolds(r: Run, b: M.Box, t: string, q: Run)
    requires Holds(r, b) && r.mail.addressed <= r.mail.awaits.Keys
    requires q == if t in r.mail.awaits then r.(mail := Close(r.mail, t)) else r
    ensures Holds(q, b.(row := M.Close(b.row, [t])))
  {
    CloseHolds(r.mail, b, t);
    if t !in r.mail.awaits {
      assert Close(r.mail, t) == r.mail by {
        assert r.mail.awaits - {t} == r.mail.awaits && r.mail.addressed - {t} == r.mail.addressed;
      }
    }
  }

  /** A child's end reaches the parent's mailbox as it reaches its row. */
  lemma ChildEndHolds(r: Run, b: M.Box, child: Id, status: Status, data: string, now: int)
    requires Holds(r, b) && r.mail.addressed <= r.mail.awaits.Keys && Ends(status)
    ensures Holds(Reported(r, child, status, now), M.ChildDone(b, child, data, now))
  {
    if "done:" + child !in r.mail.seen {
      var t := "waiting:" + child;
      var q := if t in r.mail.awaits then r.(mail := Close(r.mail, t)) else r;
      ClosedHolds(r, b, t, q);
      NoticeHolds(q, b.(row := M.Close(b.row, [t])), "done:" + child, data, now);
    }
  }

  lemma ChildWaitsHolds(r: Run, b: M.Box, child: Id, until: int, data: string, now: int)
    requires Holds(r, b)
    ensures Holds(Reported(r, child, Sleeping(until), now), M.Notify(b, M.WAITING + child, data, now))
  {
    NoticeHolds(r, b, "waiting:" + child, data, now);
  }

  lemma StartChildHolds(r: Run, b: M.Box, child: Id, now: int)
    requires Holds(r, b)
    ensures Holds(Expects(r, child, now), M.StartChild(b, child, now))
  {
    var done, waiting := "done:" + child, "waiting:" + child;
    var both := map[done := now, waiting := now] + b.row.awaits;
    assert Expects(r, child, now).mail.awaits == both;
  }

  lemma EndHolds(r: Run, b: M.Box, status: Status, spent: nat, now: int)
    requires Holds(r, b)
    ensures Holds(Ended(r, status, spent, now), M.Terminate(b))
  {
  }

  lemma SweepHolds(r: Run, b: M.Box)
    requires Holds(r, b)
    ensures Holds(Swept(r), M.Forget(b))
  {
  }

  /** Releasing as waiting, woken exactly when the mailbox holds a wanted copy. */
  lemma SleepHolds(r: Run, b: M.Box, until: int, woken: bool, now: int)
    requires Holds(r, b) && Live(r) && woken == M.HasWanted(b.row.(state := M.Waiting), b.copies, now)
    ensures Holds(LetGo(r, Sleeping(until), woken, now), M.FinishWaiting(b, until, now))
  {
  }
}
