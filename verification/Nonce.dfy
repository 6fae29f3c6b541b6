/**
 * The phase nonce: it grows with every change of phase, a player action that
 * carries an old one does nothing, and so every counted skip vote was cast in
 * the very karaoke phase that counts it.
 */
module PhaseNonce {
  import opened Common
  import opened Registry
  import opened BuzzWindow
  import opened EngineState
  import opened DailySafety
  import Scoring

  /**
   * Either the phase and its votes stand and the nonce with them, or the nonce
   * has grown, and a karaoke phase entered on the way has no votes yet.
   */
  predicate Ticks(s: State, t: State) {
    || (t.nonce == s.nonce && t.phase == s.phase && t.gate.votes == s.gate.votes)
    || (t.nonce > s.nonce && (t.phase == Karaoke ==> t.gate.votes == {}))
  }

  lemma StartCellTicks(s: State, c: Coord, w: World)
    ensures Ticks(s, StartCellNormally(s, c, w))
  {
    hide Unplayed;
  }

  lemma BeginOfferTicks(s: State, c: Coord, w: World)
    ensures Ticks(s, BeginOffer(s, c, w))
  {
    hide StartCellNormally, Filter, PresentMobile, Present;
    StartCellTicks(Unflag(s, c), c, w);
  }

  lemma SelectTicks(s: State, c: Coord, w: World)
    ensures Ticks(s, SelectCell(s, c, w))
  {
    hide BeginOffer, Unplayed, Fires, Visits;
    BeginOfferTicks(Visit(DropPick(s), c), c, w);
  }

  lemma DeclineTicks(s: State, w: World)
    ensures Ticks(s, Decline(s, w))
  {
    hide StartCellNormally, Rearm;
    if s.phase == DailyDouble && s.dd.offer.Some? {
      var o := s.dd.offer.value;
      var s1 := Unflag(s, o.cell);
      var s2 := s1.(dd := s1.dd.(bucket := s1.dd.bucket + o.candidates, offer := None));
      RearmFrame(s2, o.cell, w.cell);
      StartCellTicks(Rearm(s2, o.cell, w.cell), o.cell, w);
    }
  }

  lemma FinishTicks(s: State)
    ensures Ticks(s, FinishDaily(s))
  {
    hide Scoring.Payout;
  }

  lemma EndsTick(s: State, w: World)
    ensures Ticks(s, SkipDaily(s, w)) && Ticks(s, EndRoundNow(s, w)) && Ticks(s, OnEndGame(s))
  {
    hide Decline, FinishDaily;
    DeclineTicks(s, w);
    FinishTicks(s);
  }

  lemma CloseRoundTicks(s: State, now: int)
    ensures Ticks(s, CloseRound(s, now))
  {
    hide Voters;
  }

  lemma ResolveTicks(s: State, key: Key, w: World)
    ensures Ticks(s, ResolveWindow(s, key, w))
  {
    hide Winner, Eligible;
  }

  lemma BuzzTicks(s: State, conn: ConnId, nonce: nat, arrival: int, w: World)
    ensures Ticks(s, OnBuzz(s, conn, nonce, arrival, w))
  {
    hide ResolveWindow, Enqueue;
    var who := Owner(s.reg, conn);
    if who.Some? {
      var s1 := s.(round := s.round.(windowOpen := true, contenders := [Contender(who.value, conn, arrival)]));
      ResolveTicks(s1, s1.round.key, w);
    }
  }

  lemma GradeTicks(s: State, v: Verdict, w: World)
    ensures Ticks(s, OnGrade(s, v, w))
  {
    hide EndRoundNow, GradeCorrect, GradePartial;
    EndsTick(s, w);
    if s.round.winner.Some? && s.round.winner.value in s.reg.players {
      var p := s.round.winner.value;
      var s1 := s.(reg := SetPlayer(s.reg, p, s.reg.players[p].(guessed := true)));
      var s2 := if s.round.track.Some?
                then s1.(ledger := s1.ledger.(graded := s1.ledger.graded + {(s.round.track.value, p)})) else s1;
      AwardTicks(s2, p, w.now);
    }
  }

  lemma AwardTicks(s: State, p: PlayerId, now: int)
    requires p in s.reg.players
    ensures Ticks(s, GradeCorrect(s, p, now)) && Ticks(s, GradePartial(s, p, now))
  {
    hide CloseRound, RoundPool, PoolAfterPartial, Scoring.PoolPoints;
    var (ceiling, floor) := RoundPool(s.round);
    var paid := AwardRound(s, p, Scoring.PoolPoints(ceiling, floor, s.round.pausedMs));
    CloseRoundTicks(ConsumeTrack(paid.(gate := paid.gate.(picker := Some(p)))), now);
    var half := AwardRound(s, p, Scoring.PARTIAL);
    CloseRoundTicks(ConsumeTrack(half.(round := half.round.(partial := Some(PoolAfterPartial(s.round))))), now);
  }

  lemma VotesTick(s: State)
    ensures Ticks(s, EvaluateVotes(s)) && Ticks(s, ConditionMet(s))
  {
    hide ThresholdMet;
  }

  lemma DepartTicks(s: State, e: Event, w: World)
    requires e.Disconnect? || e.Kick?
    ensures Ticks(s, Step(s, e, w))
  {
    hide DailyWithout, EvaluateVotes, LeavePools, RemoveConn;
    match e
    case Disconnect(conn) =>
      var (reg, gone) := RemoveConn(s.reg, conn);
      if gone.Some? {
        LeaveTicks(s.(reg := reg), gone.value, w);
      }
    case Kick(p, ban) =>
      if p in s.reg.players {
        LeaveTicks(if ban then s.(reg := SetPlayer(s.reg, p, s.reg.players[p].(banned := true))) else s, p, w);
      }
  }

  lemma LeaveTicks(s: State, p: PlayerId, w: World)
    ensures Ticks(s, DailyWithout(EvaluateVotes(LeavePools(s, p)), p, w))
  {
    hide DailyWithout, EvaluateVotes;
    VotesTick(LeavePools(s, p));
    WithoutTicks(EvaluateVotes(LeavePools(s, p)), p, w);
  }

  lemma WithoutTicks(s: State, p: PlayerId, w: World)
    ensures Ticks(s, DailyWithout(s, p, w))
  {
    hide Decline;
    DeclineTicks(s, w);
  }

  lemma CountdownTicks(s: State, w: World)
    ensures Ticks(s, FireCountdown(s, w))
  {
    hide SelectCell, Unplayed;
    if s.gate.pick.Some? {
      SelectTicks(TransitionTo(
        s.(round := s.round.(track := None, cell := None), gate := s.gate.(pick := None)), BoardUp),
        s.gate.pick.value, w);
    }
  }

  lemma FireTicks(s: State, what: Deferred, w: World)
    ensures Ticks(s, OnFire(s, what, w))
  {
    hide ResolveWindow, FireCountdown, FinishDaily, CloseRound;
    var s1 := s.(pending := s.pending - multiset{what});
    match what
    case BuzzTimer(key) => ResolveTicks(s1, key, w);
    case Countdown => CountdownTicks(s1, w);
    case Fade(key) => FinishTicks(s1);
    case AutoKaraoke(key) => CloseRoundTicks(ConsumeTrack(s1), w.now);
  }

  /** A vote that counts: from somebody in the pool, with the nonce of this karaoke phase. */
  predicate Casts(s: State, e: Event, p: PlayerId) {
    && e.Vote? && s.phase == Karaoke && e.nonce == s.nonce
    && Owner(s.reg, e.conn) == Some(p) && p in s.gate.pool
  }

  /** The state with the vote of `e` counted, if it counts. */
  function WithVote(s: State, e: Event): State {
    var who := if e.Vote? then Owner(s.reg, e.conn) else None;
    if who.Some? && Casts(s, e, who.value) then s.(gate := s.gate.(votes := s.gate.votes + {who.value})) else s
  }

  lemma GamesTick(s: State, e: Event, w: World)
    requires e.StartGame? || e.ResetToLobby?
    ensures Ticks(s, Step(s, e, w))
  {
    hide ClearScores, OnBoard, ValidDeal;
  }

  lemma PeopleTick(s: State, e: Event, w: World)
    requires e.Connect? || e.Hello? || e.Heartbeat? || e.AdminAward?
    ensures Ticks(s, Step(s, e, w))
  {
    hide Owner, IsMobile, Resolve, AddConn, SetPlayer;
  }

  lemma QuietTick(s: State, e: Event, w: World)
    requires e.SetVolume? || e.EndDouble? || e.Rate? || e.LetterLockout? || e.LettersDone? || e.FadeRamp? || e.SoloPlay?
             || e.SoloStop?
    ensures Ticks(s, Step(s, e, w))
  {
    hide Step, Ticks;
    if e.LetterLockout? || e.LettersDone? {
      LettersTick(s, e, w);
    } else {
      LevelsTick(s, e, w);
    }
  }

  lemma LettersTick(s: State, e: Event, w: World)
    requires e.LetterLockout? || e.LettersDone?
    ensures Ticks(s, Step(s, e, w))
  {
    hide IsMobile, SetGuessed;
  }

  lemma LevelsTick(s: State, e: Event, w: World)
    requires e.SetVolume? || e.EndDouble? || e.Rate? || e.FadeRamp? || e.SoloPlay? || e.SoloStop?
    ensures Ticks(s, Step(s, e, w))
  {
    hide Owner;
  }

  lemma SelectionTicks(s: State, e: Event, w: World)
    requires e.AdminSelect? || e.PlayerSelect?
    ensures Ticks(s, Step(s, e, w))
  {
    hide SelectCell, PickAccepted;
    SelectTicks(s, e.at, w);
  }

  lemma EndingTicks(s: State, e: Event, w: World)
    requires e.AdminReveal? || e.EndRound? || e.EndGame? || e.TrackEnded? || e.SkipDouble?
    ensures Ticks(s, Step(s, e, w))
  {
    hide EndRoundNow, CloseRound, FinishDaily, OnEndGame, SkipDaily, ConditionMet;
    EndsTick(s, w);
    CloseRoundTicks(ConsumeTrack(s), w.now);
    FinishTicks(s);
    VotesTick(s);
  }

  lemma PlayTicks(s: State, e: Event, w: World)
    requires e.Grade? || e.Buzz? || e.Fire? || e.SetThreshold?
    ensures Ticks(s, Step(s, e, w))
  {
    hide OnGrade, OnBuzz, OnFire, EvaluateVotes;
    match e
    case Grade(v) => GradeTicks(s, v, w);
    case Buzz(conn, nonce, arrival) => BuzzTicks(s, conn, nonce, arrival, w);
    case Fire(what) => FireTicks(s, what, w);
    case SetThreshold(pct) => VotesTick(s.(gate := s.gate.(pct := Half(pct))));
  }

  lemma DoubleTicks(s: State, e: Event, w: World)
    requires e.Decide? || e.Choose?
    ensures Ticks(s, Step(s, e, w))
  {
    hide Decline, FromContestant, Shuffled, Unchosen, PresentMobile;
    DeclineTicks(s, w);
  }

  lemma VoteTicks(s: State, e: Event, w: World)
    requires e.Vote?
    ensures Ticks(WithVote(s, e), Step(s, e, w))
  {
    hide EvaluateVotes, Owner;
    VotesTick(WithVote(s, e));
  }

  lemma NonceStep(s: State, e: Event, w: World)
    ensures Ticks(WithVote(s, e), Step(s, e, w))
  {
    hide Step, Ticks;
    if e.Vote? {
      hide WithVote;
      VoteTicks(s, e, w);
    } else if e.Disconnect? || e.Kick? {
      DepartTicks(s, e, w);
    } else if e.AdminSelect? || e.PlayerSelect? {
      SelectionTicks(s, e, w);
    } else if e.AdminReveal? || e.EndRound? || e.EndGame? || e.TrackEnded? || e.SkipDouble? {
      EndingTicks(s, e, w);
    } else if e.Grade? || e.Buzz? || e.Fire? || e.SetThreshold? {
      PlayTicks(s, e, w);
    } else if e.Decide? || e.Choose? {
      DoubleTicks(s, e, w);
    } else if e.StartGame? || e.ResetToLobby? {
      GamesTick(s, e, w);
    } else if e.Connect? || e.Hello? || e.Heartbeat? || e.AdminAward? {
      PeopleTick(s, e, w);
    } else {
      QuietTick(s, e, w);
    }
  }

  // ---- Whole runs ----

  lemma {:induction false} NonceGrows(s: State, run: Run)
    ensures s.nonce <= After(s, run).nonce
    decreases |run|
  {
    hide Step;
    if run != [] {
      NonceStep(s, run[0].0, run[0].1);
      NonceGrows(Step(s, run[0].0, run[0].1), run[1..]);
    }
  }

  function ActionNonce(e: Event): Option<nat> {
    match e
    case Buzz(_, nonce, _) => Some(nonce)
    case Vote(_, nonce) => Some(nonce)
    case Rate(_, nonce, _) => Some(nonce)
    case Decide(_, nonce, _) => Some(nonce)
    case Choose(_, nonce, _) => Some(nonce)
    case PlayerSelect(_, nonce, _) => Some(nonce)
    case _ => None
  }

  /** A player action that carries another nonce than the current one does nothing. */
  lemma StaleIgnored(s: State, e: Event, w: World)
    requires ActionNonce(e).Some? && ActionNonce(e).value != s.nonce
    ensures Step(s, e, w) == s
  {
    hide OnBoard, Unplayed, Shuffled;
  }

  /** Once a command has changed the phase, an action made for the old phase is dead, however late it arrives. */
  lemma LateActionsIgnored(s: State, e: Event, w: World, run: Run, late: Event, lateWorld: World)
    requires Step(s, e, w).phase != s.phase
    requires ActionNonce(late) == Some(s.nonce)
    ensures var t := After(Step(s, e, w), run); Step(t, late, lateWorld) == t
  {
    hide Step;
    NonceStep(s, e, w);
    NonceGrows(Step(s, e, w), run);
    StaleIgnored(After(Step(s, e, w), run), late, lateWorld);
  }

  /** Somewhere in the run, `p` casts a vote under this nonce. */
  ghost predicate CastIn(s: State, run: Run, p: PlayerId, nonce: nat)
    decreases |run|
  {
    && run != []
    && ((s.nonce == nonce && Casts(s, run[0].0, p)) || CastIn(Step(s, run[0].0, run[0].1), run[1..], p, nonce))
  }

  /** Every vote on record in a karaoke phase was cast with the nonce of that phase. */
  lemma {:induction false} VotesAreCurrent(s: State, run: Run, p: PlayerId)
    requires var t := After(s, run); t.phase == Karaoke && p in t.gate.votes
    ensures var t := After(s, run);
            || (s.phase == Karaoke && s.nonce == t.nonce && p in s.gate.votes)
            || CastIn(s, run, p, t.nonce)
    decreases |run|
  {
    hide Step;
    if run != [] {
      NonceStep(s, run[0].0, run[0].1);
      VotesAreCurrent(Step(s, run[0].0, run[0].1), run[1..], p);
    }
  }
}
