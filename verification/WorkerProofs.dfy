/** The administrator's and the slow loop's steps keep the invariant. */
module WorkerProofs {
  import opened Wrappers
  import opened Rows
  import opened Protocol
  import opened Invariant

  // ---------- frames ----------

  lemma SubsetCard<T>(a: set<T>, b: set<T>)
    requires a <= b
    ensures |a| <= |b|
  {
    if a != b {
      assert b == a + (b - a);
    }
  }

  /** Nothing the task side depends on has changed. */
  ghost predicate SameTaskSide(s: State, s': State) {
    && s'.tasks == s.tasks && s'.store == s.store && s'.now == s.now && s'.fast == s.fast
    && s'.issued == s.issued && s'.requests == s.requests && s'.uploading == s.uploading
    && s'.copying == s.copying && s'.accepted == s.accepted && s'.served == s.served
  }

  lemma TaskSideKept(c: Config, s: State, s': State)
    requires TasksOk(c, s) && SameTaskSide(s, s') && (s'.slow.Cleaning? ==> s'.slow == s.slow)
    ensures TasksOk(c, s')
  {
    assert PayloadsOk(s') by {
      assert forall t :: PayloadStored(s', t) == PayloadStored(s, t);
    }
    assert ResultsOk(c, s') by {
      assert forall t <- s.tasks :: Identified(s', t) == Identified(s, t) && ResultStored(s', t) == ResultStored(s, t);
    }
  }

  /** No row becomes live, becomes a replacement, or changes generation. */
  predicate FleetShrinks(ws: Workers, ws': Workers) {
    && ws'.Keys == ws.Keys
    && forall w <- ws ::
         && (Live(ws'[w]) ==> Live(ws[w]))
         && (ActiveReplacement(ws'[w]) ==> ActiveReplacement(ws[w]))
         && ws'[w].generation == ws[w].generation
         && (ws'[w].replacementFor == ws[w].replacementFor || ws'[w].replacementFor.None?)
  }

  lemma FleetKept(c: Config, ws: Workers, ws': Workers)
    requires FleetOk(c, ws) && FleetShrinks(ws, ws')
    ensures FleetOk(c, ws')
    ensures LiveWorkers(ws') <= LiveWorkers(ws) && |LiveWorkers(ws')| <= |LiveWorkers(ws)|
    ensures ActiveReplacements(ws') <= ActiveReplacements(ws)
  {
    forall w | w in ws'
      ensures w in LiveWorkers(ws') ==> w in LiveWorkers(ws)
      ensures w in ActiveReplacements(ws') ==> w in ActiveReplacements(ws)
    {
      assert w in ws;
    }
    SubsetCard(LiveWorkers(ws'), LiveWorkers(ws));
    SubsetCard(ActiveReplacements(ws'), ActiveReplacements(ws));
  }

  lemma FleetKeptByRow(c: Config, ws: Workers, w: WorkerId, row: Worker)
    requires FleetOk(c, ws) && w in ws
    requires Live(row) ==> Live(ws[w])
    requires ActiveReplacement(row) ==> ActiveReplacement(ws[w])
    requires row.generation == ws[w].generation && row.replacementFor == ws[w].replacementFor
    ensures FleetOk(c, ws[w := row])
    ensures |LiveWorkers(ws[w := row])| <= |LiveWorkers(ws)|
    ensures ActiveReplacements(ws[w := row]) <= ActiveReplacements(ws)
  {
    FleetKept(c, ws, ws[w := row]);
  }

  /** A row none of whose steering fields changes hands. */
  predicate SameSteering(old': Worker, row: Worker) {
    && row.desired == old'.desired && row.terminatedAt == old'.terminatedAt
    && row.replacementFor == old'.replacementFor && row.generation == old'.generation
  }

  // ---------- the administrator ----------

  /** What an administrator's intent may do to a row: it never puts a sidelined worker into service. */
  predicate Intended(c: Config, old': Worker, row: Worker) {
    && SameSteering(old', row) && RowOk(c, row)
    && row.healthy == old'.healthy
    && (row.stalledAt == old'.stalledAt || row.stalledAt.None?)
    && (Sidelined(old') ==> Sidelined(row))
  }

  lemma ReconcileUnderIntent(c: Config, s: State, w: WorkerId, row: Worker)
    requires SlowOk(c, s) && w in s.workers && Intended(c, s.workers[w], row)
    requires s.slow.Reconciling? || s.slow.Visiting?
    ensures SlowOk(c, SetWorker(s, w, row))
  {
    var ws' := s.workers[w := row];
    forall v | v in s.slow.todo
      ensures v in ws' && ws'[v].desired == s.slow.todo[v].desired && VisitMayReset(c, s.slow.todo[v], ws'[v])
    {
    }
  }

  lemma ConvergeUnderIntent(c: Config, s: State, w: WorkerId, row: Worker)
    requires SlowOk(c, s) && w in s.workers && Intended(c, s.workers[w], row)
    requires s.slow.Converging? || s.slow.ConvergeAt?
    ensures SlowOk(c, SetWorker(s, w, row))
  {
    var ws' := s.workers[w := row];
    forall v | v in s.slow.todo
      ensures v in ws' && !ws'[v].healthy && s.slow.todo[v].stalledAt.Some?
    {
    }
  }

  lemma DrainUnderIntent(c: Config, s: State, w: WorkerId, row: Worker)
    requires SlowOk(c, s) && w in s.workers && Intended(c, s.workers[w], row)
    requires s.slow.Draining? || s.slow.DrainAt? || s.slow.DrainTo?
    ensures SlowOk(c, SetWorker(s, w, row))
  {
    var ws' := s.workers[w := row];
    forall v | v in s.slow.todo
      ensures v in ws' && !ws'[v].desired.WantTerminated? && Sidelined(ws'[v])
    {
    }
  }

  lemma SlowOkUnderIntent(c: Config, s: State, w: WorkerId, row: Worker)
    requires WorkersOk(c, s) && w in s.workers && Intended(c, s.workers[w], row)
    ensures SlowOk(c, SetWorker(s, w, row))
  {
    match s.slow
    case Reconciling(_, _) => ReconcileUnderIntent(c, s, w, row);
    case Visiting(_, _, _, _) => ReconcileUnderIntent(c, s, w, row);
    case Converging(_, _) => ConvergeUnderIntent(c, s, w, row);
    case ConvergeAt(_, _, _, _, _) => ConvergeUnderIntent(c, s, w, row);
    case Draining(_) => DrainUnderIntent(c, s, w, row);
    case DrainAt(_, _, _) => DrainUnderIntent(c, s, w, row);
    case DrainTo(_, _, _) => DrainUnderIntent(c, s, w, row);
    case ScaleCreate => FleetKeptByRow(c, s.workers, w, row);
    case RotationStart(_) => FleetKeptByRow(c, s.workers, w, row);
    case _ =>
  }

  /** The pieces of the invariant around a write to one worker row. */
  lemma RowWriteKeeps(c: Config, s: State, w: WorkerId, row: Worker, s': State)
    requires Inv(c, s) && w in s.workers && s'.workers == s.workers[w := row] && RowOk(c, row)
    requires Live(row) ==> Live(s.workers[w])
    requires ActiveReplacement(row) ==> ActiveReplacement(s.workers[w])
    requires row.generation == s.workers[w].generation && row.replacementFor == s.workers[w].replacementFor
    requires s.workers[w].desired.WantTerminated? ==> row.desired.WantTerminated?
    requires SameTaskSide(s, s') && (s'.slow.Cleaning? ==> s'.slow == s.slow)
    requires s'.quiet <= s.quiet + {w} && (w in s'.quiet ==> row.desired.WantTerminated?)
    requires SlowOk(c, s')
    requires forall v :: MustBeIdle(s', v) ==> MustBeIdle(s, v)
    ensures Inv(c, s')
  {
    FleetKeptByRow(c, s.workers, w, row);
    TaskSideKept(c, s, s');
  }

  lemma AdminKeeps(c: Config, s: State, a: AdminStep, s': State)
    requires Inv(c, s) && AdminNext(s, a) == Some(s')
    ensures Inv(c, s')
  {
    var row := s'.workers[a.w];
    assert RowOk(c, s.workers[a.w]);
    assert Intended(c, s.workers[a.w], row);
    SlowOkUnderIntent(c, s, a.w, row);
    assert s' == SetWorker(s, a.w, row);
    RowWriteKeeps(c, s, a.w, row, s');
  }

  // ---------- the slow loop ----------

  /** What a reconcile visit may do to its row. */
  predicate Visited(c: Config, seen: Worker, old': Worker, row: Worker) {
    && RowOk(c, row)
    && (Live(row) ==> Live(old')) && (ActiveReplacement(row) ==> ActiveReplacement(old'))
    && row.generation == old'.generation && row.replacementFor == old'.replacementFor
    && (row.desired == old'.desired || row.desired.WantTerminated?)
  }

  /** What a step of a visit does to its row, and to what the loop holds. */
  ghost predicate VisitEffects(c: Config, s: State, s': State)
    requires s.slow.Visiting? && s.slow.w in s.workers
  {
    var w := s.slow.w;
    && w in s'.workers && Visited(c, s.slow.seen, s.workers[w], s'.workers[w])
    && s' == s.(workers := s.workers[w := s'.workers[w]], slow := s'.slow)
    && (|| s'.slow == Reconciling(s.slow.todo, s.slow.at)
        || (s'.slow == s.slow && VisitMayReset(c, s.slow.seen, s'.workers[w])))
  }

  lemma VisitEndEffect(c: Config, s: State, l: SlowStep, s': State)
    requires s.slow.Visiting? && s.slow.w in s.workers && VisitNext(c, s, l) == Some(s')
    requires RowOk(c, s.workers[s.slow.w]) && VisitMayReset(c, s.slow.seen, s.workers[s.slow.w])
    requires !SkipsReconcile(c, s.slow.seen, s.slow.at) && (l.RecFail? || l.RecReset?)
    requires s.workers[s.slow.w].desired == s.slow.seen.desired || s.workers[s.slow.w].desired.WantTerminated?
    ensures VisitEffects(c, s, s')
  {
  }

  lemma VisitEffect(c: Config, s: State, l: SlowStep, s': State)
    requires s.slow.Visiting? && s.slow.w in s.workers && VisitNext(c, s, l) == Some(s')
    requires RowOk(c, s.workers[s.slow.w]) && VisitMayReset(c, s.slow.seen, s.workers[s.slow.w])
    requires !SkipsReconcile(c, s.slow.seen, s.slow.at) && !l.RecFail? && !l.RecReset?
    requires s.workers[s.slow.w].desired == s.slow.seen.desired || s.workers[s.slow.w].desired.WantTerminated?
    ensures VisitEffects(c, s, s')
  {
    hide FailureRecorded, FailuresReset;
  }

  lemma VisitKeeps(c: Config, s: State, l: SlowStep, s': State)
    requires Inv(c, s) && s.slow.Visiting? && VisitNext(c, s, l) == Some(s')
    ensures Inv(c, s')
  {
    var w := s.slow.w;
    var row := s'.workers[w];
    assert RowOk(c, s.workers[w]);
    assert SlowOk(c, s);
    hide Inv, VisitNext, RowOk;
    if l.RecFail? || l.RecReset? {
      VisitEndEffect(c, s, l, s');
    } else {
      VisitEffect(c, s, l, s');
    }
    VisitedKeeps(c, s, row, s'.slow);
  }

  lemma VisitedKeeps(c: Config, s: State, row: Worker, slow': SlowPc)
    requires Inv(c, s) && s.slow.Visiting? && Visited(c, s.slow.seen, s.workers[s.slow.w], row)
    requires || slow' == Reconciling(s.slow.todo, s.slow.at)
             || (slow' == s.slow && VisitMayReset(c, s.slow.seen, row))
    ensures Inv(c, s.(workers := s.workers[s.slow.w := row], slow := slow'))
  {
    var w := s.slow.w;
    var s' := s.(workers := s.workers[w := row], slow := slow');
    forall v | v in s.slow.todo
      ensures v in s'.workers && s'.workers[v] == s.workers[v]
    {
    }
    assert SlowOk(c, s');
    RowWriteKeeps(c, s, w, row, s');
  }

  /** The correction of a row whose worker turned out to have several VMs. */
  lemma RebindKeeps(c: Config, s: State, l: SlowStep, s': State)
    requires Inv(c, s) && s.slow.Reconciling? && l.Rebind? && ReconcileNext(c, s, l) == Some(s')
    ensures Inv(c, s')
  {
    var row := s'.workers[l.w];
    assert RowOk(c, s.workers[l.w]) && RowOk(c, row);
    forall v | v in s'.slow.todo
      ensures v in s'.workers && s'.workers[v].desired == s'.slow.todo[v].desired
              && VisitMayReset(c, s'.slow.todo[v], s'.workers[v])
    {
      assert VisitMayReset(c, s.slow.todo[v], s.workers[v]);
    }
    assert forall v :: MustBeIdle(s', v) ==> MustBeIdle(s, v);
    RowWriteKeeps(c, s, l.w, row, s');
  }

  lemma ReconcileKeeps(c: Config, s: State, l: SlowStep, s': State)
    requires Inv(c, s) && (s.slow.SlowIdle? || s.slow.Reconciling?) && SlowNext(c, s, l) == Some(s') && !l.Rebind?
    ensures Inv(c, s')
  {
    TaskSideKept(c, s, s');
    assert forall v :: MustBeIdle(s', v) ==> MustBeIdle(s, v);
    if l.ReconcileList? {
      assert forall w <- s.workers :: RowOk(c, s.workers[w]);
    } else if l.ConvergeList? {
      forall w | w in s.workers && s.workers[w].desired.WantStopped? && s.workers[w].stalledAt.Some?
        ensures w in s'.slow.todo
      {
        assert RowOk(c, s.workers[w]);
      }
      assert forall w <- s'.slow.todo :: RowOk(c, s.workers[w]);
    }
  }

  /** A move of the slow loop that writes nothing. */
  lemma MoveKeeps(c: Config, s: State, slow': SlowPc)
    requires Inv(c, s) && !slow'.Cleaning?
    requires SlowOk(c, s.(slow := slow'))
    requires forall v :: MustBeIdle(s.(slow := slow'), v) ==> Unattended(s.tasks, v)
    ensures Inv(c, s.(slow := slow'))
  {
    TaskSideKept(c, s, s.(slow := slow'));
  }

  lemma ConvergeMoveKeeps(c: Config, s: State, l: SlowStep, s': State)
    requires Inv(c, s) && s.slow.Converging? && ConvergeNext(c, s, l) == Some(s')
    ensures Inv(c, s')
  {
    var slow' := s'.slow;
    assert s' == s.(slow := slow');
    if l.ConvergeLook? {
      assert s.workers[l.w].desired.WantStopped? ==> MustBeIdle(s, l.w);
    }
    assert SlowOk(c, s');
    forall v | MustBeIdle(s', v)
      ensures Unattended(s.tasks, v)
    {
      assert MustBeIdle(s, v) || (v == l.w && Unattended(s.tasks, v));
    }
    MoveKeeps(c, s, slow');
  }

  lemma ConvergeWriteKeeps(c: Config, s: State, l: SlowStep, s': State)
    requires Inv(c, s) && s.slow.ConvergeAt? && s.slow.w in s.workers && ConvergeNext(c, s, l) == Some(s')
    ensures Inv(c, s')
  {
    var w := s.slow.w;
    var row := s'.workers[w];
    assert RowOk(c, s.workers[w]);
    assert s'.workers == s.workers[w := row];
    assert SlowOk(c, s');
    assert forall v :: MustBeIdle(s', v) ==> MustBeIdle(s, v);
    RowWriteKeeps(c, s, w, row, s');
  }

  /** A write to many rows at once. */
  lemma TableWriteKeeps(c: Config, s: State, ws': Workers, slow': SlowPc)
    requires Inv(c, s) && FleetShrinks(s.workers, ws') && !slow'.Cleaning?
    requires forall w <- s.workers :: RowOk(c, ws'[w]) && ws'[w].desired == s.workers[w].desired
    requires SlowOk(c, s.(workers := ws', slow := slow'))
    requires !slow'.DrainAt? && !slow'.DrainTo? && !slow'.ConvergeAt?
    ensures Inv(c, s.(workers := ws', slow := slow'))
  {
    var s' := s.(workers := ws', slow := slow');
    FleetKept(c, s.workers, ws');
    TaskSideKept(c, s, s');
    assert RowsOk(c, ws') by {
      forall w | w in ws'
        ensures RowOk(c, ws'[w])
      {
        assert w in s.workers;
      }
    }
    forall v | MustBeIdle(s', v)
      ensures MustBeIdle(s, v)
    {
      assert v in ws' ==> v in s.workers;
    }
  }

  lemma ProbedRowOk(c: Config, row: Worker, ok: bool, now: Time)
    requires RowOk(c, row) && row.stalledAt.None?
    ensures var r := Probed(row, ok, now);
            RowOk(c, r) && SameSteering(row, r) && r.stalledAt == row.stalledAt
  {
  }

  lemma HealthListKeeps(c: Config, s: State, l: SlowStep, s': State)
    requires Inv(c, s) && s.slow.Converged? && SlowNext(c, s, l) == Some(s') && !l.SlowAbort?
    ensures Inv(c, s')
  {
    assert s' == s.(slow := s'.slow);
    if l.HealthList? {
      forall w | w in l.ws
        ensures w in s.workers && s.workers[w].stalledAt.None?
      {
        assert RowOk(c, s.workers[w]);
      }
    }
    assert forall v :: MustBeIdle(s', v) ==> MustBeIdle(s, v);
    MoveKeeps(c, s, s'.slow);
  }

  lemma HealthApplyKeeps(c: Config, s: State, l: SlowStep, s': State)
    requires Inv(c, s) && s.slow.Probing? && SlowNext(c, s, l) == Some(s') && !l.SlowAbort?
    ensures Inv(c, s')
  {
    var ws' := s'.workers;
    forall w | w in s.workers
      ensures w in ws' && RowOk(c, ws'[w]) && SameSteering(s.workers[w], ws'[w])
      ensures ws'[w].stalledAt == s.workers[w].stalledAt
    {
      assert RowOk(c, s.workers[w]);
      if w in s.slow.probed {
        ProbedRowOk(c, s.workers[w], w in l.ok, s.now);
      }
    }
    assert NoStalledSpare(ws') by {
      assert forall w <- ws' :: w in s.workers;
    }
    TableWriteKeeps(c, s, ws', Scaling);
  }

  lemma NewRowFleet(c: Config, ws: Workers, id: WorkerId, row: Worker)
    requires FleetOk(c, ws) && id !in ws && |LiveWorkers(ws)| < c.maxWorkers + 1
    requires row.replacementFor.Some? ==>
               ActiveReplacements(ws) == {} && row.replacementFor.value in ws
               && ws[row.replacementFor.value].replacementFor.None?
               && row.generation == ws[row.replacementFor.value].generation + 1
    ensures FleetOk(c, ws[id := row])
  {
    var ws' := ws[id := row];
    assert LiveWorkers(ws') <= LiveWorkers(ws) + {id};
    SubsetCard(LiveWorkers(ws'), LiveWorkers(ws) + {id});
    if row.replacementFor.Some? {
      assert ActiveReplacements(ws') <= {id};
      SubsetCard(ActiveReplacements(ws'), {id});
    } else {
      assert ActiveReplacements(ws') == ActiveReplacements(ws);
    }
  }

  lemma ScaleMoveKeeps(c: Config, s: State, l: SlowStep, s': State)
    requires Inv(c, s) && s.slow.Scaling? && ScaleNext(c, s, l) == Some(s')
    ensures Inv(c, s')
  {
    assert s' == s.(slow := s'.slow);
    assert forall v :: MustBeIdle(s', v) ==> MustBeIdle(s, v);
    MoveKeeps(c, s, s'.slow);
  }

  lemma ScaleRestartKeeps(c: Config, s: State, s': State)
    requires Inv(c, s) && s.slow.ScaleRestart? && s.slow.w in s.workers
    requires s' == SetWorker(s, s.slow.w, Restarted(s.workers[s.slow.w], s.now)).(slow := Scaled)
    ensures Inv(c, s')
  {
    assert RowOk(c, s.workers[s.slow.w]);
    assert s.slow.w !in s.quiet;
    assert forall v :: MustBeIdle(s', v) ==> MustBeIdle(s, v);
    RowWriteKeeps(c, s, s.slow.w, s'.workers[s.slow.w], s');
  }

  lemma ScaleCreateKeeps(c: Config, s: State, id: WorkerId, s': State)
    requires Inv(c, s) && s.slow.ScaleCreate? && id !in s.workers
    requires s' == SetWorker(s, id, NewWorker(s.now)).(slow := Scaled)
    ensures Inv(c, s')
  {
    TaskSideKept(c, s, s');
    NewRowFleet(c, s.workers, id, NewWorker(s.now));
    assert forall v :: MustBeIdle(s', v) ==> MustBeIdle(s, v);
  }

  lemma ScaleDrainKeeps(c: Config, s: State, s': State)
    requires Inv(c, s) && s.slow.ScaleDrain? && s.slow.w in s.workers
    requires s' == SetWorker(s, s.slow.w, DrainIntended(s.workers[s.slow.w], WantStopped)).(slow := Scaled)
    ensures Inv(c, s')
  {
    assert RowOk(c, s.workers[s.slow.w]);
    assert forall v :: MustBeIdle(s', v) ==> MustBeIdle(s, v);
    RowWriteKeeps(c, s, s.slow.w, s'.workers[s.slow.w], s');
  }

  lemma ScaleKeeps(c: Config, s: State, l: SlowStep, s': State)
    requires Inv(c, s) && SlowNext(c, s, l) == Some(s') && !l.SlowAbort?
    requires s.slow.Scaling? || s.slow.ScaleRestart? || s.slow.ScaleCreate? || s.slow.ScaleDrain?
    ensures Inv(c, s')
  {
    hide Inv, ScaleNext;
    match s.slow
    case Scaling => ScaleMoveKeeps(c, s, l, s');
    case ScaleRestart(w) => ScaleRestartKeeps(c, s, s');
    case ScaleCreate => ScaleCreateKeeps(c, s, l.id, s');
    case ScaleDrain(w) => ScaleDrainKeeps(c, s, s');
  }

  /** The replacement links that the slow loop lists. */
  lemma RotationsListKeeps(c: Config, s: State, s': State)
    requires Inv(c, s) && s.slow.Scaled? && SlowNext(c, s, RotationsList) == Some(s')
    ensures Inv(c, s')
  {
    assert s' == s.(slow := s'.slow);
    assert forall v :: MustBeIdle(s', v) ==> MustBeIdle(s, v);
    MoveKeeps(c, s, s'.slow);
  }

  lemma RotateWriteKeeps(c: Config, s: State, l: SlowStep, s': State)
    requires Inv(c, s) && s.slow.Rotating? && RotateNext(c, s, l) == Some(s') && (l.RotateExpire? || l.RotateDrainOld?)
    ensures Inv(c, s')
  {
    var w := if l.RotateExpire? then l.w else s.slow.todo[l.w].replacementFor.value;
    assert RowOk(c, s.workers[w]);
    assert s'.workers == s.workers[w := s'.workers[w]];
    assert forall v :: MustBeIdle(s', v) ==> MustBeIdle(s, v);
    RowWriteKeeps(c, s, w, s'.workers[w], s');
  }

  lemma RotateKeeps(c: Config, s: State, l: SlowStep, s': State)
    requires Inv(c, s) && s.slow.Rotating? && RotateNext(c, s, l) == Some(s')
    ensures Inv(c, s')
  {
    if l.RotateExpire? || l.RotateDrainOld? {
      hide Inv, RotateNext;
      RotateWriteKeeps(c, s, l, s');
    } else {
      assert s' == s.(slow := s'.slow);
      assert forall v :: MustBeIdle(s', v) ==> MustBeIdle(s, v);
      MoveKeeps(c, s, s'.slow);
    }
  }

  /** What the reads of the drains establish about what the loop holds. */
  lemma DrainMoveEffect(c: Config, s: State, l: SlowStep, s': State)
    requires (s.slow.Draining? || (s.slow.DrainAt? && s.slow.w in s.workers)) && DrainNext(c, s, l) == Some(s')
    requires SlowOk(c, s)
    ensures s' == s.(slow := s'.slow) && SlowOk(c, s') && !s'.slow.Cleaning?
    ensures forall v :: MustBeIdle(s', v) ==> MustBeIdle(s, v) || Unattended(s.tasks, v)
  {
    hide HasActiveReplacementFor, HasReadyReplacementFor, Unattended;
  }

  lemma DrainMoveKeeps(c: Config, s: State, l: SlowStep, s': State)
    requires Inv(c, s) && (s.slow.Draining? || (s.slow.DrainAt? && s.slow.w in s.workers))
    requires DrainNext(c, s, l) == Some(s')
    ensures Inv(c, s')
  {
    assert SlowOk(c, s);
    hide DrainNext, SlowOk;
    DrainMoveEffect(c, s, l, s');
    forall v | MustBeIdle(s', v)
      ensures Unattended(s.tasks, v)
    {
      assert MustBeIdle(s, v) || Unattended(s.tasks, v);
    }
    MoveKeeps(c, s, s'.slow);
  }

  /** The write that ends a drain: to stopped, leaving the drain; or to terminated, for good. */
  lemma DrainCommitEffect(c: Config, s: State, l: SlowStep, s': State)
    requires s.slow.DrainTo? && s.slow.w in s.workers && DrainNext(c, s, l) == Some(s')
    requires RowOk(c, s.workers[s.slow.w]) && !s.workers[s.slow.w].desired.WantTerminated?
    ensures var w := s.slow.w;
            && w in s'.workers && RowOk(c, s'.workers[w])
            && s' == s.(workers := s.workers[w := s'.workers[w]], slow := Draining(s.slow.todo), quiet := s'.quiet)
            && SameButSteered(s.workers[w], s'.workers[w])
            && s'.quiet == (if s'.workers[w].desired.WantTerminated? then s.quiet + {w} else s.quiet)
            && !s'.workers[w].desired.WantRunning?
  {
    hide HasActiveReplacementFor, HasReadyReplacementFor, Unattended, Select;
  }

  predicate SameButSteered(old': Worker, row: Worker) {
    && row.terminatedAt == old'.terminatedAt && row.replacementFor == old'.replacementFor
    && row.generation == old'.generation
  }

  lemma DrainCommitKeeps(c: Config, s: State, l: SlowStep, s': State)
    requires Inv(c, s) && s.slow.DrainTo? && s.slow.w in s.workers && DrainNext(c, s, l) == Some(s')
    ensures Inv(c, s')
  {
    assert RowOk(c, s.workers[s.slow.w]);
    DrainCommitEffect(c, s, l, s');
    DrainedKeeps(c, s, s'.workers[s.slow.w], s'.quiet);
  }

  lemma DrainedKeeps(c: Config, s: State, row: Worker, quiet': set<WorkerId>)
    requires Inv(c, s) && s.slow.DrainTo? && s.slow.w in s.workers && RowOk(c, row)
    requires SameButSteered(s.workers[s.slow.w], row) && !row.desired.WantRunning?
    requires quiet' == if row.desired.WantTerminated? then s.quiet + {s.slow.w} else s.quiet
    ensures Inv(c, s.(workers := s.workers[s.slow.w := row], slow := Draining(s.slow.todo), quiet := quiet'))
  {
    var w := s.slow.w;
    var s' := s.(workers := s.workers[w := row], slow := Draining(s.slow.todo), quiet := quiet');
    assert !s.workers[w].desired.WantTerminated?;
    assert w !in s.quiet;
    assert MustBeIdle(s, w);
    forall v | MustBeIdle(s', v)
      ensures MustBeIdle(s, v)
    {
    }
    assert ActiveReplacement(row) ==> ActiveReplacement(s.workers[w]);
    RowWriteKeeps(c, s, w, row, s');
  }

  lemma FinalizedShrinks(c: Config, ws: Workers, w: WorkerId, now: Time)
    requires RowsOk(c, ws) && w in ws && ws[w].desired.WantTerminated?
    ensures FleetShrinks(ws, Finalized(ws, w, now)) && RowsOk(c, Finalized(ws, w, now))
    ensures forall v <- ws :: Finalized(ws, w, now)[v].desired == ws[v].desired
  {
    var ws' := Finalized(ws, w, now);
    forall v | v in ws
      ensures v in ws' && RowOk(c, ws'[v])
    {
      assert RowOk(c, ws[v]);
    }
  }

  lemma FinalizeKeeps(c: Config, s: State, l: SlowStep, s': State)
    requires Inv(c, s) && s.slow.Finalizing? && SlowNext(c, s, l) == Some(s') && !l.SlowAbort?
    ensures Inv(c, s')
  {
    if l.Finalize? {
      FinalizedShrinks(c, s.workers, l.w, s.now);
      TableWriteKeeps(c, s, Finalized(s.workers, l.w, s.now), s'.slow);
    } else {
      assert forall v :: MustBeIdle(s', v) ==> MustBeIdle(s, v);
      MoveKeeps(c, s, s'.slow);
    }
  }

  lemma ReplacementKeeps(c: Config, s: State, id: WorkerId, s': State)
    requires Inv(c, s) && s.slow.RotationStart? && s.slow.target in s.workers
    requires RotationNext(c, s, RotationCommit(id)) == Some(s')
    ensures Inv(c, s')
  {
    var target := s.slow.target;
    var row := s.workers[target].(rotationRequested := false);
    assert RowOk(c, s.workers[target]);
    FleetKeptByRow(c, s.workers, target, row);
    NewRowFleet(c, s.workers[target := row], id, NewReplacement(s.workers[target], target, s.now));
    TaskSideKept(c, s, s');
    assert forall v :: MustBeIdle(s', v) ==> MustBeIdle(s, v);
  }

  lemma RotationKeeps(c: Config, s: State, l: SlowStep, s': State)
    requires Inv(c, s) && (s.slow.RotationCheck? || s.slow.RotationStart?)
    requires SlowNext(c, s, l) == Some(s') && !l.SlowAbort?
    ensures Inv(c, s')
  {
    if s.slow.RotationStart? {
      hide Inv, RotationNext;
      assert l.RotationCommit? by { RotationStarts(c, s, l); }
      ReplacementKeeps(c, s, l.id, s');
    } else {
      assert s' == s.(slow := s'.slow);
      assert forall v :: MustBeIdle(s', v) ==> MustBeIdle(s, v);
      MoveKeeps(c, s, s'.slow);
    }
  }

  lemma RotationStarts(c: Config, s: State, l: SlowStep)
    requires s.slow.RotationStart? && s.slow.target in s.workers && RotationNext(c, s, l).Some?
    ensures l.RotationCommit?
  {
  }
}
