/** The plain course of each pool operation when nobody else is around. */
module ConnectionPoolCourses {
  import opened ConnectionPool

  /** A session with a usable connection keeps it: nothing moves. */
  lemma UsableConnectionIsReused(p: Pool, t: Task, session: SessionId)
    requires session in p.shared.active
    ensures Step(p, BeginAcquire(t, session, true)) == p
  {
  }

  /** A session without one takes an idle slot and is filed. */
  lemma FreshAcquire(p: Pool, t: Task, session: SessionId, usable: bool)
    requires t !in p.tasks && session !in p.shared.active && p.shared.idle == p.shared.idleCount > 0
    ensures var taken := Step(Step(p, BeginAcquire(t, session, usable)), Take(t));
            var q := Step(taken, Insert(t));
            && taken.shared.idle == p.shared.idle - 1 && session !in taken.shared.active
            && q.shared == p.shared.(active := p.shared.active + {session}, idle := p.shared.idle - 1,
                                     idleCount := p.shared.idle - 1)
            && q.tasks == p.tasks
  {
  }

  /** Without an idle slot the acquire fails and changes nothing. */
  lemma ExhaustedAcquire(p: Pool, t: Task, session: SessionId, usable: bool)
    requires t !in p.tasks && session !in p.shared.active && p.shared.idle == 0
    ensures Step(Step(p, BeginAcquire(t, session, usable)), Take(t)) == p
  {
  }

  /** A session with a dead connection gives its slot back and takes one anew. */
  lemma DeadConnectionIsReplaced(p: Pool, t: Task, session: SessionId)
    requires Consistent(p) && t !in p.tasks && session in p.shared.active
    ensures var removed := Step(Step(p, BeginAcquire(t, session, false)), Remove(t));
            var returned := Step(removed, GiveBack(t));
            var q := Step(Step(returned, Take(t)), Insert(t));
            && removed.shared == p.shared.(active := p.shared.active - {session})
            && returned.shared.idle == p.shared.idle + 1
            && q == p
  {
    RoomWithActive(p, session);
    assert p.shared.active - {session} + {session} == p.shared.active;
  }

  /** Releasing an active session returns its slot; releasing any other changes nothing. */
  lemma ReleaseReturnsTheSlot(p: Pool, t: Task, session: SessionId)
    requires Consistent(p) && t !in p.tasks
    ensures var removed := Step(Step(p, BeginRelease(t, session)), Remove(t));
            if session in p.shared.active then
              var q := Step(removed, GiveBack(t));
              && q.shared == p.shared.(active := p.shared.active - {session}, idle := p.shared.idle + 1,
                                       idleCount := p.shared.idle + 1)
              && q.tasks == p.tasks
            else removed == p
  {
    if session in p.shared.active {
      RoomWithActive(p, session);
    }
  }

  /** With an active session the channel is not full. */
  lemma RoomWithActive(p: Pool, session: SessionId)
    requires Consistent(p) && session in p.shared.active
    ensures p.shared.idle < p.shared.size
  {
    assert |p.shared.active| > 0;
  }

  /** A failed connect loses the slot; a failed bootstrap also looks for a connection to give back. */
  lemma FailedAcquire(p: Pool, t: Task, session: SessionId)
    requires t in p.tasks && p.tasks[t] == Holding(session)
    ensures Step(p, ConnectFails(t)) == p.(tasks := p.tasks - {t})
    ensures Step(p, BootstrapFails(t)) == p.(tasks := p.tasks[t := Removing(session, ThenReturn)])
  {
  }

  /** A fresh pool has all its slots idle: as many as configured, a thousand by default. */
  lemma FreshPool(configured: nat)
    ensures var p := Init(configured);
            && p.shared.size == p.shared.idle == p.shared.idleCount == (if configured == 0 then 1000 else configured)
            && p.shared.active == {} && p.tasks == map[]
  {
  }
}
