/**
 * What every command keeps about a round in play: the buzz protocol and its
 * lock, the pending timers, the points, and the idle karaoke gate.
 */
module RoundSafety {
  import opened Common
  import opened Registry
  import opened BuzzWindow
  import opened EngineState
  import Scoring

  predicate InPlay(s: State) {
    s.phase == RoundActive || s.phase == Adjudicate
  }

  /** Keys in use were all minted before `nextKey`, so a new round never meets an old one. */
  ghost predicate KeysFresh(s: State) {
    && 0 < s.nextKey && s.round.key < s.nextKey
    && (forall k :: k in s.locks ==> k < s.nextKey)
    && (forall d :: d in s.pending ==> d.Countdown? || d.key < s.nextKey)
  }

  /** The buzz protocol: who holds the lock, and which timers are still to come. */
  ghost predicate BuzzInv(s: State) {
    && s.phase != Locked
    && (InPlay(s) ==> s.round.track.Some?)
    && (s.phase == Adjudicate ==>
          && s.round.winner.Some? && s.round.winner.value in s.reg.players
          && s.round.key in s.locks && s.locks[s.round.key] == s.round.winner.value
          && !s.round.windowOpen && s.pending[BuzzTimer(s.round.key)] == 0)
    && (s.phase == RoundActive ==>
          && s.round.winner.None? && s.round.key !in s.locks
          && s.pending[BuzzTimer(s.round.key)] == (if s.round.windowOpen then 1 else 0)
          && (s.immediate ==> !s.round.windowOpen))
  }

  /** No pick waits during a round or a Daily Double, and no picker until somebody has earned it. */
  predicate GateIdle(s: State) {
    && (InPlay(s) || s.phase == DailyDouble ==> s.gate.pick.None?)
    && (InPlay(s) || (s.phase == DailyDouble && s.dd.offer.Some?) ==> s.gate.picker.None?)
    && (s.phase == Transition ==> Countdown in s.pending)
  }

  /** Points the round may still pay, given what it has paid. */
  predicate PointsInv(s: State) {
    var paid, most := s.ledger.roundPoints, Scoring.MaxPointsForRow(s.ledger.roundRow);
    if InPlay(s) then
      && s.round.row == s.ledger.roundRow
      && (match s.round.partial
          case None => paid == 0
          case Some(left) => paid == Scoring.PARTIAL && Scoring.PARTIAL <= left <= most - Scoring.PARTIAL)
    else paid == 0 || paid == Scoring.PARTIAL || Scoring.BASE <= paid <= most
  }

  ghost predicate RoundInv(s: State) {
    KeysFresh(s) && BuzzInv(s) && GateIdle(s) && PointsInv(s)
  }

  // ---- The shared steps ----

  lemma StartTrackSafe(s: State, c: Coord, t: TrackId, now: int)
    requires KeysFresh(s) && s.gate.picker.None? && s.gate.pick.None?
    ensures RoundInv(StartTrack(s, c, t, now))
  {
    assert BuzzTimer(s.nextKey) !in s.pending;
  }

  lemma StartCellSafe(s: State, c: Coord, w: World)
    requires KeysFresh(s) && s.gate.picker.None? && s.gate.pick.None?
    requires !InPlay(s) && PointsInv(s)
    ensures RoundInv(StartCellNormally(s, c, w))
  {
    hide Unplayed;
    if Unplayed(s.board, s.played, c) != [] {
      StartTrackSafe(s, c, Pick(Unplayed(s.board, s.played, c), w.track), w.now);
    }
  }

  lemma BeginOfferSafe(s: State, c: Coord, w: World)
    requires KeysFresh(s) && s.gate.picker.None? && s.gate.pick.None?
    requires !InPlay(s) && PointsInv(s)
    ensures RoundInv(BeginOffer(s, c, w))
  {
    hide StartCellNormally, OpenOffer, Filter, PresentMobile, Present, Scoring.MaxPointsForRow;
    StartCellSafe(Unflag(s, c), c, w);
    forall p: PlayerId {
      OpenOfferSafe(s, c, p);
    }
  }

  lemma OpenOfferSafe(s: State, c: Coord, p: PlayerId)
    requires KeysFresh(s) && s.gate.picker.None? && s.gate.pick.None?
    requires !InPlay(s) && PointsInv(s)
    ensures RoundInv(OpenOffer(s, c, p))
  {
  }

  lemma SelectSafe(s: State, c: Coord, w: World)
    requires RoundInv(s)
    ensures RoundInv(SelectCell(s, c, w))
  {
    hide BeginOffer, Unplayed, StartTrack, Fires, Visits;
    if !Busy(s) && Unplayed(s.board, s.played, c) != [] {
      var s2 := Visit(DropPick(s), c);
      assert s2.gate.picker.None? && s2.gate.pick.None?;
      BeginOfferSafe(s2, c, w);
      StartTrackSafe(s2, c, Pick(Unplayed(s2.board, s2.played, c), w.track), w.now);
    }
  }

  lemma DeclineSafe(s: State, w: World)
    requires RoundInv(s)
    ensures RoundInv(Decline(s, w))
  {
    hide StartCellNormally, Filter, Heirs, Visits, Scoring.MaxPointsForRow;
    if s.phase == DailyDouble && s.dd.offer.Some? {
      var o := s.dd.offer.value;
      var s1 := Unflag(s, o.cell);
      var s2 := s1.(dd := s1.dd.(bucket := s1.dd.bucket + o.candidates, offer := None));
      StartCellSafe(Rearm(s2, o.cell, w.cell), o.cell, w);
    }
  }

  /** A command that lands outside a round only has to keep the keys and settle the points. */
  lemma OutOfPlaySafe(s: State)
    requires KeysFresh(s) && s.phase in {Lobby, BoardUp, Karaoke, GameOver}
    requires PointsInv(s)
    ensures RoundInv(s)
  {
  }

  predicate Settled(s: State) {
    var paid, most := s.ledger.roundPoints, Scoring.MaxPointsForRow(s.ledger.roundRow);
    paid == 0 || paid == Scoring.PARTIAL || Scoring.BASE <= paid <= most
  }

  lemma CloseRoundSafe(s: State, now: int)
    requires KeysFresh(s) && Settled(s)
    ensures RoundInv(CloseRound(s, now))
  {
    hide Voters, Scoring.MaxPointsForRow;
  }

  lemma FinishSafe(s: State)
    requires RoundInv(s) && s.phase == DailyDouble
    ensures RoundInv(FinishDaily(s))
  {
    hide Scoring.Payout, Scoring.MaxPointsForRow;
  }

  lemma EndRoundSafe(s: State, w: World)
    requires RoundInv(s)
    ensures RoundInv(EndRoundNow(s, w))
  {
    hide RoundInv;
    if s.phase == DailyDouble {
      hide Decline, FinishDaily;
      DeclineSafe(s, w);
      FinishSafe(s);
    } else {
      hide SkipDaily;
      EndPlaySafe(s, w);
    }
  }

  lemma EndPlaySafe(s: State, w: World)
    requires RoundInv(s) && s.phase != DailyDouble
    ensures RoundInv(EndRoundNow(s, w))
  {
    hide SkipDaily, Scoring.MaxPointsForRow, BuzzInv, GateIdle;
    OutOfPlaySafe(EndRoundNow(s, w));
  }

  lemma VotesSafe(s: State)
    requires RoundInv(s)
    ensures RoundInv(EvaluateVotes(s))
  {
    hide ThresholdMet, Scoring.MaxPointsForRow;
  }

  lemma LeaveSafe(s: State, p: PlayerId, w: World)
    requires RoundInv(s)
    ensures RoundInv(DailyWithout(EvaluateVotes(LeavePools(s, p)), p, w))
  {
    hide EvaluateVotes, Decline, CheckComplete, Scoring.MaxPointsForRow;
    var s1 := LeavePools(s, p);
    VotesSafe(s1);
    var s2 := EvaluateVotes(s1);
    DeclineSafe(s2, w);
    CheckSafe(s2);
  }

  lemma CheckSafe(s: State)
    requires RoundInv(s)
    ensures RoundInv(CheckComplete(s))
  {
    hide Scoring.MaxPointsForRow;
  }

  // ---- Buzzing and grading ----

  lemma ResolveSafe(s: State, key: Key, w: World)
    requires KeysFresh(s) && GateIdle(s) && PointsInv(s)
    requires key == s.round.key && s.phase == RoundActive ==> s.pending[BuzzTimer(key)] == 0
    requires BuzzInv(s) || (key == s.round.key && s.phase == RoundActive && s.round.windowOpen
                            && BuzzInv(CloseWindow(s)))
    ensures RoundInv(ResolveWindow(s, key, w))
  {
    hide Eligible, Winner, Scoring.MaxPointsForRow;
    WinnerRegistered(s, w);
  }

  lemma WinnerRegistered(s: State, w: World)
    ensures var x := Winner(s.round.contenders, w.order, Eligible(s.reg));
            x.Some? ==> x.value.player in Eligible(s.reg) && x.value.player in s.reg.players
  {
    WinnerIsEarliest(s.round.contenders, w.order, Eligible(s.reg));
  }

  lemma BuzzSafe(s: State, conn: ConnId, nonce: nat, arrival: int, w: World)
    requires RoundInv(s)
    ensures RoundInv(OnBuzz(s, conn, nonce, arrival, w))
  {
    hide ResolveWindow, Enqueue, Scoring.MaxPointsForRow;
    var who := Owner(s.reg, conn);
    if s.phase == RoundActive && !s.round.windowOpen && s.immediate && who.Some? {
      var s1 := s.(round := s.round.(windowOpen := true, contenders := [Contender(who.value, conn, arrival)]));
      ResolveSafe(s1, s1.round.key, w);
    }
  }

  lemma CorrectSafe(s: State, p: PlayerId, now: int)
    requires RoundInv(s) && s.phase == Adjudicate && p in s.reg.players
    ensures RoundInv(GradeCorrect(s, p, now))
  {
    hide CloseRound, Scoring.MaxPointsForRow, Scoring.PoolPoints;
    var (ceiling, floor) := RoundPool(s.round);
    Scoring.PoolBounded(ceiling, floor, s.round.pausedMs);
    var s1 := AwardRound(s, p, Scoring.PoolPoints(ceiling, floor, s.round.pausedMs));
    var s2 := ConsumeTrack(s1.(gate := s1.gate.(picker := Some(p))));
    assert KeysFresh(s2) && Settled(s2);
    CloseRoundSafe(s2, now);
  }

  lemma PartialSafe(s: State, p: PlayerId, now: int)
    requires RoundInv(s) && s.phase == Adjudicate && p in s.reg.players
    ensures RoundInv(GradePartial(s, p, now))
  {
    hide CloseRound, Scoring.MaxPointsForRow, Scoring.Leftover;
    Scoring.LeftoverBounded(s.round.row, s.round.pausedMs);
    var s1 := AwardRound(s, p, Scoring.PARTIAL);
    var s2 := s1.(round := s1.round.(partial := Some(PoolAfterPartial(s.round))));
    if s.round.partial.Some? {
      CloseRoundSafe(ConsumeTrack(s2), now);
    }
  }

  lemma GradeSafe(s: State, v: Verdict, w: World)
    requires RoundInv(s)
    ensures RoundInv(OnGrade(s, v, w))
  {
    hide GradeCorrect, GradePartial, Scoring.MaxPointsForRow;
    if s.phase == Adjudicate {
      var p := s.round.winner.value;
      var s1 := s.(reg := SetPlayer(s.reg, p, s.reg.players[p].(guessed := true)));
      var s2 := s1.(ledger := s1.ledger.(graded := s1.ledger.graded + {(s.round.track.value, p)}));
      assert RoundInv(s1) && RoundInv(s2);
      CorrectSafe(s2, p, w.now);
      PartialSafe(s2, p, w.now);
    }
  }

  lemma RevealSafe(s: State, now: int)
    requires RoundInv(s)
    ensures RoundInv(CloseRound(ConsumeTrack(s), now))
  {
    CloseRoundSafe(ConsumeTrack(s), now);
  }

  // ---- Deferred work ----

  lemma CountdownSafe(s: State, w: World)
    requires KeysFresh(s) && PointsInv(s) && !InPlay(s)
    requires s.phase != Transition ==> RoundInv(s)
    ensures RoundInv(FireCountdown(s, w))
  {
    hide SelectCell, Unplayed, Scoring.MaxPointsForRow;
    if s.phase == Transition {
      var s1 := TransitionTo(
        s.(round := s.round.(track := None, cell := None), gate := s.gate.(pick := None)), BoardUp);
      OutOfPlaySafe(s1);
      if s.gate.pick.Some? {
        SelectSafe(s1, s.gate.pick.value, w);
      }
    }
  }

  lemma FireSafe(s: State, what: Deferred, w: World)
    requires RoundInv(s)
    ensures RoundInv(OnFire(s, what, w))
  {
    hide ResolveWindow, FireCountdown, FinishDaily, CloseRound, Scoring.MaxPointsForRow;
    if what in s.pending {
      var s1 := s.(pending := s.pending - multiset{what});
      assert KeysFresh(s1) && PointsInv(s1);
      match what
      case BuzzTimer(key) => ResolveTimerSafe(s, key, w);
      case Countdown =>
        if InPlay(s) || s.phase != Transition {
          assert RoundInv(s1);
          if InPlay(s) { } else { CountdownSafe(s1, w); }
          assert FireCountdown(s1, w) == s1 by { FireCountdownElsewhere(s1, w); }
        } else {
          CountdownSafe(s1, w);
        }
      case Fade(key) => FireFadeSafe(s1, key);
      case AutoKaraoke(key) =>
        assert RoundInv(s1);
        RevealSafe(s1, w.now);
    }
  }

  lemma FireCountdownElsewhere(s: State, w: World)
    requires s.phase != Transition
    ensures FireCountdown(s, w) == s
  {
  }

  lemma ResolveTimerSafe(s: State, key: Key, w: World)
    requires RoundInv(s) && BuzzTimer(key) in s.pending
    ensures RoundInv(ResolveWindow(s.(pending := s.pending - multiset{BuzzTimer(key)}), key, w))
  {
    hide Winner, Eligible, ResolveWindow, Scoring.MaxPointsForRow;
    var s1 := s.(pending := s.pending - multiset{BuzzTimer(key)});
    ResolveSafe(s1, key, w);
  }

  lemma FireFadeSafe(s: State, key: Key)
    requires RoundInv(s)
    ensures RoundInv(FireFade(s, key))
  {
    hide FinishDaily, Scoring.MaxPointsForRow;
    if Performing(s) {
      FinishSafe(s);
    }
  }

  lemma SelectPlayerSafe(s: State, conn: ConnId, nonce: nat, c: Coord, w: World)
    requires RoundInv(s)
    ensures RoundInv(OnPlayerSelect(s, conn, nonce, c, w))
  {
    hide SelectCell, PickAccepted, Scoring.MaxPointsForRow;
    SelectSafe(s, c, w);
    assert PickAccepted(s, conn, nonce, c) ==> s.phase in {Karaoke, BoardUp} by { PickPhase(s, conn, nonce, c); }
  }

  lemma PickPhase(s: State, conn: ConnId, nonce: nat, c: Coord)
    ensures PickAccepted(s, conn, nonce, c) ==> s.phase in {Karaoke, BoardUp}
  {
  }

  /** The commands that change neither the round nor the gate. */
  lemma QuietSafe(s: State, e: Event, w: World)
    requires RoundInv(s)
    requires e.SetVolume? || e.EndDouble? || e.Rate? || e.LettersDone? || e.FadeRamp? || e.SoloPlay? || e.SoloStop?
    ensures RoundInv(Step(s, e, w))
  {
    hide RoundInv;
    if e.EndDouble? || e.LettersDone? {
      LaterSafe(s, e, w);
    } else {
      LevelsSafe(s, e, w);
    }
  }

  lemma LaterSafe(s: State, e: Event, w: World)
    requires RoundInv(s) && (e.EndDouble? || e.LettersDone?)
    ensures RoundInv(Step(s, e, w))
  {
    hide Scoring.MaxPointsForRow, PointsInv;
    PointsRead(s, Step(s, e, w));
  }

  lemma LevelsSafe(s: State, e: Event, w: World)
    requires RoundInv(s) && (e.SetVolume? || e.Rate? || e.FadeRamp? || e.SoloPlay? || e.SoloStop?)
    ensures RoundInv(Step(s, e, w))
  {
    hide RoundInv, Step, SameRound;
    SameRounds(s, e, w);
    RoundsRead(s, Step(s, e, w));
  }

  /** Everything that RoundInv reads is as before. */
  predicate SameRound(s: State, t: State) {
    && t.phase == s.phase && t.nextKey == s.nextKey && t.round == s.round && t.locks == s.locks && t.gate == s.gate
    && t.pending == s.pending && t.ledger == s.ledger && t.reg == s.reg && t.immediate == s.immediate
    && t.dd.offer == s.dd.offer
  }

  lemma SameRounds(s: State, e: Event, w: World)
    requires e.SetVolume? || e.Rate? || e.FadeRamp? || e.SoloPlay? || e.SoloStop?
    ensures SameRound(s, Step(s, e, w))
  {
    hide Owner;
  }

  lemma RoundsRead(s: State, t: State)
    requires SameRound(s, t) && RoundInv(s)
    ensures RoundInv(t)
  {
    hide Scoring.MaxPointsForRow;
  }

  /** What the points rest on. */
  lemma PointsRead(s: State, t: State)
    requires t.ledger == s.ledger && t.round.partial == s.round.partial && t.round.row == s.round.row
             && t.phase == s.phase
    ensures PointsInv(t) == PointsInv(s)
  {
    hide Scoring.MaxPointsForRow;
  }

  lemma PeopleSafe(s: State, e: Event, w: World)
    requires RoundInv(s)
    requires e.Connect? || e.Hello? || e.Heartbeat? || e.AdminAward?
    ensures RoundInv(Step(s, e, w))
  {
    hide Scoring.MaxPointsForRow, Online, IsMobile, PointsInv, KeysFresh, GateIdle;
    PeopleRead(s, Step(s, e, w));
  }

  lemma PeopleRead(s: State, t: State)
    requires t == s.(reg := t.reg)
    ensures PointsInv(t) == PointsInv(s) && KeysFresh(t) == KeysFresh(s) && GateIdle(t) == GateIdle(s)
  {
    hide Scoring.MaxPointsForRow;
  }

  lemma LockOutSafe(s: State, key: Key)
    requires RoundInv(s)
    ensures RoundInv(LockOut(s, key))
  {
    hide Scoring.MaxPointsForRow, IsMobile, PointsInv;
    PointsRead(s, LockOut(s, key));
  }

  lemma GameSafe(s: State, e: Event, w: World)
    requires RoundInv(s)
    requires e.StartGame? || e.ResetToLobby? || e.EndGame?
    ensures RoundInv(Step(s, e, w))
  {
    hide Scoring.MaxPointsForRow, OnStartGame, OnReset, FinishDaily;
    if e.StartGame? || e.ResetToLobby? {
      NewGameSafe(s, w.deal);
    } else if Performing(s) {
      FinishSafe(s);
    }
  }

  lemma NewGameSafe(s: State, deal: set<Coord>)
    requires RoundInv(s)
    ensures RoundInv(OnStartGame(s, deal)) && RoundInv(OnReset(s))
  {
    hide Scoring.MaxPointsForRow, ValidDeal, ClearScores, OnBoard;
  }

  lemma DoubleSafe(s: State, e: Event, w: World)
    requires RoundInv(s)
    requires e.SkipDouble? || e.Decide? || e.Choose?
    ensures RoundInv(Step(s, e, w))
  {
    hide Scoring.MaxPointsForRow, FinishDaily, Decline, Shuffled, Unchosen, PresentMobile;
    DeclineSafe(s, w);
    if s.phase == DailyDouble {
      FinishSafe(s);
    }
  }

  lemma DisconnectSafe(s: State, conn: ConnId, w: World)
    requires RoundInv(s)
    ensures RoundInv(OnDisconnect(s, conn, w))
  {
    hide DailyWithout, EvaluateVotes, LeavePools, RemoveConn, Scoring.MaxPointsForRow;
    var (reg, gone) := RemoveConn(s.reg, conn);
    RemoveConnSafe(s, conn);
    if gone.Some? {
      LeaveSafe(s.(reg := reg), gone.value, w);
    }
  }

  lemma RemoveConnSafe(s: State, conn: ConnId)
    requires RoundInv(s)
    ensures RoundInv(s.(reg := RemoveConn(s.reg, conn).0))
  {
    hide Scoring.MaxPointsForRow;
  }

  lemma KickSafe(s: State, p: PlayerId, ban: bool, w: World)
    requires RoundInv(s)
    ensures RoundInv(OnKick(s, p, ban, w))
  {
    hide DailyWithout, EvaluateVotes, LeavePools, Scoring.MaxPointsForRow;
    if p in s.reg.players {
      var s1 := if ban then s.(reg := SetPlayer(s.reg, p, s.reg.players[p].(banned := true))) else s;
      assert RoundInv(s1);
      LeaveSafe(s1, p, w);
    }
  }

  lemma VoteSafe(s: State, conn: ConnId, nonce: nat)
    requires RoundInv(s)
    ensures RoundInv(OnVote(s, conn, nonce))
  {
    hide EvaluateVotes, Scoring.MaxPointsForRow;
    if Owner(s.reg, conn).Some? {
      VotesSafe(s.(gate := s.gate.(votes := s.gate.votes + {Owner(s.reg, conn).value})));
    }
  }

  lemma ThresholdSafe(s: State, pct: int)
    requires RoundInv(s)
    ensures RoundInv(OnSetThreshold(s, pct))
  {
    hide EvaluateVotes, Scoring.MaxPointsForRow;
    VotesSafe(s.(gate := s.gate.(pct := Half(pct))));
  }

  lemma TrackEndedSafe(s: State, queueOver: bool, w: World)
    requires RoundInv(s)
    ensures RoundInv(OnTrackEnded(s, queueOver, w))
  {
    hide EndRoundNow, FinishDaily, ConditionMet, Scoring.MaxPointsForRow;
    EndRoundSafe(s, w);
    ConditionSafe(s);
    if s.phase == DailyDouble {
      FinishSafe(s);
    }
  }

  lemma ConditionSafe(s: State)
    requires RoundInv(s)
    ensures s.phase == Karaoke ==> RoundInv(ConditionMet(s))
    ensures RoundInv(s.(solo := true)) && RoundInv(s.(solo := false))
  {
    hide Scoring.MaxPointsForRow;
  }

  /** Every command keeps the invariant, whatever the clock, the dice and the shuffles. */
  lemma RoundStep(s: State, e: Event, w: World)
    requires RoundInv(s)
    ensures RoundInv(Step(s, e, w))
  {
    hide OnDisconnect, OnKick, OnSetThreshold, OnVote, SelectCell, CloseRound, EndRoundNow, OnGrade, OnBuzz,
         OnPlayerSelect, OnTrackEnded, OnFire, LockOut, KeysFresh, BuzzInv, GateIdle, PointsInv;
    match e
    case Disconnect(conn) => DisconnectSafe(s, conn, w);
    case Kick(p, ban) => KickSafe(s, p, ban, w);
    case SetThreshold(pct) => ThresholdSafe(s, pct);
    case Vote(conn, nonce) => VoteSafe(s, conn, nonce);
    case StartGame => GameSafe(s, e, w);
    case ResetToLobby => GameSafe(s, e, w);
    case EndGame => GameSafe(s, e, w);
    case SkipDouble => DoubleSafe(s, e, w);
    case Decide(_, _, _) => DoubleSafe(s, e, w);
    case Choose(_, _, _) => DoubleSafe(s, e, w);
    case AdminSelect(at) => SelectSafe(s, at, w);
    case AdminReveal => RevealSafe(s, w.now);
    case EndRound => EndRoundSafe(s, w);
    case Grade(v) => GradeSafe(s, v, w);
    case Buzz(conn, nonce, arrival) => BuzzSafe(s, conn, nonce, arrival, w);
    case PlayerSelect(conn, nonce, at) => SelectPlayerSafe(s, conn, nonce, at, w);
    case TrackEnded(queueOver) => TrackEndedSafe(s, queueOver, w);
    case Fire(what) => FireSafe(s, what, w);
    case LetterLockout(key) => LockOutSafe(s, key);
    case Connect(_) => PeopleSafe(s, e, w);
    case Hello(_, _, _) => PeopleSafe(s, e, w);
    case Heartbeat(_) => PeopleSafe(s, e, w);
    case AdminAward(_, _) => PeopleSafe(s, e, w);
    case _ => QuietSafe(s, e, w);
  }
}
