/** The mode lock: Solo Karaoke and a trivia game never hold the engine together. */
module ModeLock {
  import opened Registry
  import opened EngineState
  import opened GateTheory
  import opened Frames

  predicate Idle(s: State) {
    s.phase == Lobby || s.phase == GameOver
  }

  predicate ModeLocked(s: State) {
    s.solo ==> Idle(s)
  }

  datatype Holder = Nobody | Trivia | SoloKaraoke

  /** modeLockOwner, as the code switches on it. */
  function ModeLockOwner(s: State): Holder {
    if s.solo then SoloKaraoke else if !Idle(s) then Trivia else Nobody
  }

  /** Under the lock the two conditions of the switch exclude each other, so its order is immaterial. */
  lemma OwnerUnambiguous(s: State)
    ensures ModeLocked(s) <==>
            (ModeLockOwner(s) == if !Idle(s) then Trivia else if s.solo then SoloKaraoke else Nobody)
  {
  }

  /** The admin commands that the engine does not refuse outside a game. */
  predicate Unguarded(s: State, e: Event) {
    e.AdminReveal? || e.EndRound? || (e.AdminSelect? && Unplayed(s.board, s.played, e.at) != [])
  }

  /** Nothing but a start, a New Game and the unguarded admin commands moves an idle engine. */
  lemma IdleStays(s: State, e: Event, w: World)
    requires Idle(s) && !Unguarded(s, e) && !e.StartGame? && !e.ResetToLobby? && !e.EndGame?
    requires s.solo
    ensures Idle(Step(s, e, w))
  {
    if e.Disconnect? || e.Kick? {
      IdleDeparts(s, e, w);
    } else if e.Fire? {
      IdleFire(s, e.what, w);
    } else if e.AdminSelect? {
      hide SelectCell, Unplayed;
      SelectView(s, e.at, w);
    } else {
      IdleQuiet(s, e, w);
    }
  }

  lemma IdleDeparts(s: State, e: Event, w: World)
    requires Idle(s) && (e.Disconnect? || e.Kick?)
    ensures Idle(Step(s, e, w))
  {
    hide OnDisconnect, OnKick, DailyWithout, EvaluateVotes, LeavePools, RemoveConn;
    match e
    case Disconnect(conn) =>
      DisconnectView(s, conn, w);
      var (reg, gone) := RemoveConn(s.reg, conn);
      if gone.Some? {
        IdleLeave(s.(reg := reg), gone.value, w);
      }
    case Kick(p, ban) =>
      KickView(s, p, ban, w);
      if p in s.reg.players {
        IdleLeave(if ban then s.(reg := SetPlayer(s.reg, p, s.reg.players[p].(banned := true))) else s, p, w);
      }
  }

  lemma IdleQuiet(s: State, e: Event, w: World)
    requires Idle(s) && s.solo && !e.StartGame? && !e.ResetToLobby? && !e.EndGame?
    requires !e.AdminSelect? && !e.AdminReveal? && !e.EndRound? && !e.Disconnect? && !e.Kick? && !e.Fire?
    ensures Idle(Step(s, e, w))
  {
    hide SelectCell, Unplayed, Decline, FinishDaily, Owner, IsMobile, Resolve, AddConn, SetPlayer, SetGuessed,
         ThresholdMet;
  }

  lemma IdleLeave(s: State, p: PlayerId, w: World)
    requires Idle(s)
    ensures DailyWithout(EvaluateVotes(LeavePools(s, p)), p, w).phase == s.phase
  {
    hide ThresholdMet;
  }

  lemma IdleFire(s: State, what: Deferred, w: World)
    requires Idle(s)
    ensures OnFire(s, what, w).phase == s.phase
  {
  }

  /**
   * Late timers of an ended game included, every command keeps the lock, except
   * exactly the unguarded admin commands issued while Solo Karaoke is active.
   */
  lemma ModeStep(s: State, e: Event, w: World)
    requires ModeLocked(s)
    ensures ModeLocked(Step(s, e, w)) <==> !(s.solo && Unguarded(s, e))
  {
    hide Step, Unplayed;
    StepFramed(s, e, w);
    if s.solo {
      if Unguarded(s, e) {
        UnguardedLeaves(s, e, w);
      } else if e.StartGame? || e.ResetToLobby? || e.EndGame? {
        GamesIdle(s, e, w);
      } else {
        IdleStays(s, e, w);
      }
    } else {
      SoloStarts(s, e, w);
    }
  }

  lemma UnguardedLeaves(s: State, e: Event, w: World)
    requires Idle(s) && Unguarded(s, e)
    ensures !Idle(Step(s, e, w))
  {
    hide SelectCell, EndRoundNow, Unplayed, Voters;
    if e.AdminSelect? {
      SelectView(s, e.at, w);
    }
    EndRoundView(s, w);
  }

  lemma GamesIdle(s: State, e: Event, w: World)
    requires Idle(s) && s.solo && (e.StartGame? || e.ResetToLobby? || e.EndGame?)
    ensures Idle(Step(s, e, w))
  {
    hide ValidDeal, OnBoard, ClearScores, FinishDaily;
  }

  lemma SoloStarts(s: State, e: Event, w: World)
    requires !s.solo
    ensures ModeLocked(Step(s, e, w))
  {
    hide Step;
    StepFramed(s, e, w);
    if e.SoloPlay? || e.SoloStop? || e.TrackEnded? {
      SoloStartsHere(s, e, w);
    }
  }

  lemma SoloStartsHere(s: State, e: Event, w: World)
    requires !s.solo && (e.SoloPlay? || e.SoloStop? || e.TrackEnded?)
    ensures ModeLocked(Step(s, e, w))
  {
    hide EndRoundNow, FinishDaily;
    EndRoundFramed(s, w);
    FinishFramed(s);
  }

  /** A run in which the unguarded commands are only issued during a game. */
  ghost predicate InGameOnly(s: State, run: Run)
    decreases |run|
  {
    run != [] ==> !(s.solo && Unguarded(s, run[0].0)) && InGameOnly(Step(s, run[0].0, run[0].1), run[1..])
  }

  /** From a fresh engine, the lock holds over every such run. */
  lemma ModeLockHolds(s: State, run: Run)
    requires Init(s) && InGameOnly(s, run)
    ensures ModeLocked(After(s, run))
  {
    hide After, InGameOnly;
    LockRuns(s, run);
  }

  lemma {:induction false} LockRuns(s: State, run: Run)
    requires ModeLocked(s) && InGameOnly(s, run)
    ensures ModeLocked(After(s, run))
    decreases |run|
  {
    hide Step, Unguarded, ModeLocked;
    if run != [] {
      ModeStep(s, run[0].0, run[0].1);
      LockRuns(Step(s, run[0].0, run[0].1), run[1..]);
    }
  }
}
