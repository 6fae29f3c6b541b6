/** What no command of the loop changes: the board, and by all but three of them, the Solo Karaoke flag. */
module Frames {
  import opened Common
  import opened Registry
  import opened BuzzWindow
  import opened EngineState
  import opened DailySafety
  import Scoring

  predicate Framed(s: State, t: State) {
    t.board == s.board && t.solo == s.solo && t.immediate == s.immediate
  }

  lemma StartFramed(s: State, c: Coord, w: World)
    ensures Framed(s, StartCellNormally(s, c, w)) && Framed(s, BeginOffer(s, c, w))
  {
    hide Unplayed, Filter, PresentMobile, Present;
  }

  lemma SelectFramed(s: State, c: Coord, w: World)
    ensures Framed(s, SelectCell(s, c, w))
  {
    hide BeginOffer, Unplayed, Fires, Visits;
    StartFramed(Visit(DropPick(s), c), c, w);
  }

  lemma DeclineFramed(s: State, w: World)
    ensures Framed(s, Decline(s, w))
  {
    hide StartCellNormally, Rearm;
    if s.phase == DailyDouble && s.dd.offer.Some? {
      var o := s.dd.offer.value;
      var s1 := Unflag(s, o.cell);
      var s2 := s1.(dd := s1.dd.(bucket := s1.dd.bucket + o.candidates, offer := None));
      RearmFrame(s2, o.cell, w.cell);
      StartFramed(Rearm(s2, o.cell, w.cell), o.cell, w);
    }
  }

  lemma FinishFramed(s: State)
    ensures Framed(s, FinishDaily(s))
  {
    hide Scoring.Payout;
  }

  lemma EndRoundFramed(s: State, w: World)
    ensures Framed(s, SkipDaily(s, w)) && Framed(s, EndRoundNow(s, w))
  {
    hide Decline, FinishDaily;
    DeclineFramed(s, w);
    FinishFramed(s);
  }

  lemma CloseRoundFramed(s: State, now: int)
    ensures Framed(s, CloseRound(s, now))
  {
    hide Voters;
  }

  lemma GradeFramed(s: State, v: Verdict, w: World)
    ensures Framed(s, OnGrade(s, v, w))
  {
    hide EndRoundNow, GradeCorrect, GradePartial;
    EndRoundFramed(s, w);
    if s.round.winner.Some? && s.round.winner.value in s.reg.players {
      var p := s.round.winner.value;
      var s1 := s.(reg := SetPlayer(s.reg, p, s.reg.players[p].(guessed := true)));
      var s2 := if s.round.track.Some?
                then s1.(ledger := s1.ledger.(graded := s1.ledger.graded + {(s.round.track.value, p)})) else s1;
      CorrectFramed(s2, p, w.now);
    }
  }

  lemma CorrectFramed(s: State, p: PlayerId, now: int)
    requires p in s.reg.players
    ensures Framed(s, GradeCorrect(s, p, now)) && Framed(s, GradePartial(s, p, now))
  {
    hide CloseRound, PoolAfterPartial, RoundPool;
    forall t: State {
      CloseRoundFramed(t, now);
    }
  }

  lemma BuzzFramed(s: State, conn: ConnId, nonce: nat, arrival: int, key: Key, w: World)
    ensures Framed(s, ResolveWindow(s, key, w)) && Framed(s, OnBuzz(s, conn, nonce, arrival, w))
  {
    hide Winner, Eligible, Enqueue;
  }

  lemma LeaveFramed(s: State, p: PlayerId, w: World)
    ensures Framed(s, DailyWithout(EvaluateVotes(LeavePools(s, p)), p, w))
  {
    hide Decline, EvaluateVotes;
    VotesFramed(LeavePools(s, p));
    DeclineFramed(EvaluateVotes(LeavePools(s, p)), w);
    ConditionFramed(EvaluateVotes(LeavePools(s, p)));
  }

  lemma DepartFramed(s: State, e: Event, w: World)
    requires e.Disconnect? || e.Kick?
    ensures Framed(s, Step(s, e, w))
  {
    hide DailyWithout, EvaluateVotes, LeavePools, RemoveConn;
    match e
    case Disconnect(conn) =>
      var (reg, gone) := RemoveConn(s.reg, conn);
      if gone.Some? {
        LeaveFramed(s.(reg := reg), gone.value, w);
      }
    case Kick(p, ban) =>
      if p in s.reg.players {
        LeaveFramed(if ban then s.(reg := SetPlayer(s.reg, p, s.reg.players[p].(banned := true))) else s, p, w);
      }
  }

  lemma FireFramed(s: State, what: Deferred, w: World)
    ensures Framed(s, OnFire(s, what, w))
  {
    hide ResolveWindow, FireCountdown, FireFade, FireAutoKaraoke;
    var s1 := s.(pending := s.pending - multiset{what});
    match what
    case BuzzTimer(key) => BuzzFramed(s1, 0, 0, 0, key, w);
    case Countdown => CountdownFramed(s1, w);
    case Fade(key) => FadeFramed(s1, key);
    case AutoKaraoke(key) => AutoFramed(s1, key, w.now);
  }

  lemma CountdownFramed(s: State, w: World)
    ensures Framed(s, FireCountdown(s, w))
  {
    hide SelectCell, Unplayed;
    if s.gate.pick.Some? {
      SelectFramed(TransitionTo(
        s.(round := s.round.(track := None, cell := None), gate := s.gate.(pick := None)), BoardUp),
        s.gate.pick.value, w);
    }
  }

  lemma FadeFramed(s: State, key: Key)
    ensures Framed(s, FireFade(s, key))
  {
    hide FinishDaily;
    FinishFramed(s);
  }

  lemma AutoFramed(s: State, key: Key, now: int)
    ensures Framed(s, FireAutoKaraoke(s, key, now))
  {
    hide CloseRound;
    CloseRoundFramed(ConsumeTrack(s), now);
  }

  lemma PlayFramed(s: State, e: Event, w: World)
    requires e.AdminSelect? || e.PlayerSelect? || e.Grade? || e.Buzz? || e.AdminReveal? || e.EndRound? || e.EndGame?
             || e.SkipDouble? || e.EndDouble? || e.SetThreshold? || e.Vote? || e.Fire?
    ensures Framed(s, Step(s, e, w))
  {
    hide Step, Framed;
    if e.AdminSelect? || e.PlayerSelect? || e.Buzz? {
      OpeningFramed(s, e, w);
    } else if e.SetThreshold? || e.Vote? || e.EndDouble? {
      VotingFramed(s, e, w);
    } else {
      ClosingFramed(s, e, w);
    }
  }

  lemma OpeningFramed(s: State, e: Event, w: World)
    requires e.AdminSelect? || e.PlayerSelect? || e.Buzz?
    ensures Framed(s, Step(s, e, w))
  {
    hide SelectCell, OnBuzz, PickAccepted;
    match e
    case AdminSelect(at) => SelectFramed(s, at, w);
    case PlayerSelect(_, _, at) => SelectFramed(s, at, w);
    case Buzz(conn, nonce, arrival) => BuzzFramed(s, conn, nonce, arrival, 0, w);
  }

  lemma VotingFramed(s: State, e: Event, w: World)
    requires e.SetThreshold? || e.Vote? || e.EndDouble?
    ensures Framed(s, Step(s, e, w))
  {
    hide EvaluateVotes, Owner, FadeOut;
    match e
    case EndDouble => ConditionFramed(s);
    case SetThreshold(pct) => VotesFramed(s.(gate := s.gate.(pct := Half(pct))));
    case Vote(conn, _) =>
      if Owner(s.reg, conn).Some? {
        VotesFramed(s.(gate := s.gate.(votes := s.gate.votes + {Owner(s.reg, conn).value})));
      }
  }

  lemma ClosingFramed(s: State, e: Event, w: World)
    requires e.Grade? || e.AdminReveal? || e.EndRound? || e.EndGame? || e.SkipDouble? || e.Fire?
    ensures Framed(s, Step(s, e, w))
  {
    hide OnGrade, EndRoundNow, CloseRound, FinishDaily, SkipDaily, OnFire;
    match e
    case Grade(v) => GradeFramed(s, v, w);
    case AdminReveal => CloseRoundFramed(ConsumeTrack(s), w.now);
    case EndRound => EndRoundFramed(s, w);
    case EndGame => FinishFramed(s);
    case SkipDouble => EndRoundFramed(s, w);
    case Fire(what) => FireFramed(s, what, w);
  }

  lemma QuietFramed(s: State, e: Event, w: World)
    requires e.Connect? || e.Hello? || e.Heartbeat? || e.AdminAward? || e.StartGame? || e.ResetToLobby?
             || e.SetVolume? || e.Rate? || e.LetterLockout? || e.LettersDone? || e.FadeRamp?
    ensures Framed(s, Step(s, e, w))
  {
    hide ValidDeal, OnBoard, IsMobile, Owner, Resolve, AddConn, SetPlayer, ClearScores, SetGuessed;
  }

  lemma SoloFramed(s: State, e: Event, w: World)
    requires e.SoloPlay? || e.SoloStop? || e.TrackEnded?
    ensures Step(s, e, w).board == s.board && Step(s, e, w).immediate == s.immediate
  {
    hide OnTrackEnded;
    if e.TrackEnded? {
      TrackFramed(s, e.queueOver, w);
    }
  }

  lemma TrackFramed(s: State, queueOver: bool, w: World)
    ensures Framed(s, OnTrackEnded(s, queueOver, w).(solo := s.solo))
  {
    hide EndRoundNow, FinishDaily, ConditionMet;
    EndRoundFramed(s, w);
    FinishFramed(s);
    ConditionFramed(s);
  }

  lemma StepFramed(s: State, e: Event, w: World)
    ensures Step(s, e, w).board == s.board && Step(s, e, w).immediate == s.immediate
    ensures !e.SoloPlay? && !e.SoloStop? && !e.TrackEnded? ==> Step(s, e, w).solo == s.solo
  {
    hide Step;
    if e.Disconnect? || e.Kick? {
      DepartFramed(s, e, w);
    } else if e.Decide? || e.Choose? {
      DoubleFramed(s, e, w);
    } else if e.SoloPlay? || e.SoloStop? || e.TrackEnded? {
      SoloFramed(s, e, w);
    } else if e.Connect? || e.Hello? || e.Heartbeat? || e.AdminAward? || e.StartGame? || e.ResetToLobby?
              || e.SetVolume? || e.Rate? || e.LetterLockout? || e.LettersDone? || e.FadeRamp? {
      QuietFramed(s, e, w);
    } else {
      PlayFramed(s, e, w);
    }
  }

  lemma DoubleFramed(s: State, e: Event, w: World)
    requires e.Decide? || e.Choose?
    ensures Framed(s, Step(s, e, w))
  {
    hide Decline, FromContestant, Shuffled, Unchosen, PresentMobile;
    DeclineFramed(s, w);
    if e.Choose? && s.dd.offer.Some? {
      PerformFramed(s, s.dd.offer.value.contestant, e.song, w);
    }
  }

  lemma PerformFramed(s: State, p: PlayerId, song: TrackId, w: World)
    requires s.dd.offer.Some?
    ensures Framed(s, StartPerformance(s, p, song, w))
  {
    hide Decline, Unchosen, PresentMobile;
    DeclineFramed(s, w);
  }

  lemma ConditionFramed(s: State)
    ensures Framed(s, ConditionMet(s)) && Framed(s, FadeOut(s))
  {
  }

  lemma VotesFramed(s: State)
    ensures Framed(s, EvaluateVotes(s))
  {
    hide ThresholdMet;
  }
}
