/**
 * What is handed on between phases: the pick of a karaoke phase to the round
 * that the countdown starts, and the song of a Daily Double to the performer
 * who is paid for it.
 */
module Handover {
  import opened Common
  import opened Registry
  import opened EngineState
  import opened RoundSafety
  import opened DailySafety
  import opened GateTheory
  import opened KaraokePhase
  import opened Frames
  import opened Outcomes
  import Scoring

  /** The command takes the picker away. */
  predicate PickerLeaves(s: State, e: Event) {
    && s.gate.picker.Some?
    && match e
       case Disconnect(conn) => RemoveConn(s.reg, conn).1 == s.gate.picker
       case Kick(p, _) => p in s.reg.players && Some(p) == s.gate.picker
       case _ => false
  }

  ghost predicate PickerGone(s: State, run: Run)
    decreases |run|
  {
    run != [] && (PickerLeaves(s, run[0].0) || PickerGone(Step(s, run[0].0, run[0].1), run[1..]))
  }

  /** The admin commands that override a karaoke phase or a countdown. */
  predicate Overrides(e: Event) {
    e.AdminSelect? || e.AdminReveal? || e.EndRound? || e.EndGame?
  }

  // ---- What a command does to picker, pick and played tracks outside a round ----

  predicate Between(s: State) {
    s.phase == Karaoke || s.phase == Transition || OnStage(s)
  }

  predicate SameHands(s: State, t: State) {
    t.phase == s.phase && t.played == s.played && t.gate.picker == s.gate.picker && t.gate.pick == s.gate.pick
  }

  lemma DepartHands(s: State, e: Event, w: World)
    requires s.phase != Karaoke && (e.Disconnect? || e.Kick?)
    ensures var t := Step(s, e, w);
            && t.gate.picker == (if PickerLeaves(s, e) then None else s.gate.picker)
            && t.gate.pick == (if PickerLeaves(s, e) then None else s.gate.pick)
  {
    hide OnDisconnect, OnKick, DailyWithout, EvaluateVotes, LeavePools, RemoveConn;
    match e
    case Disconnect(conn) =>
      DisconnectView(s, conn, w);
      var (reg, gone) := RemoveConn(s.reg, conn);
      if gone.Some? {
        LeaveView(s.(reg := reg), gone.value, w);
      }
    case Kick(p, ban) =>
      KickView(s, p, ban, w);
      if p in s.reg.players {
        LeaveView(if ban then s.(reg := SetPlayer(s.reg, p, s.reg.players[p].(banned := true))) else s, p, w);
      }
  }

  /** Leaving a karaoke phase or a countdown plays no track. */
  lemma LeavePlayed(s: State, p: PlayerId, w: World)
    requires s.phase in {Karaoke, Transition}
    ensures var r := DailyWithout(EvaluateVotes(LeavePools(s, p)), p, w);
            r.played == s.played && (s.phase == Transition ==> r.phase == Transition)
  {
    hide EvaluateVotes;
    VotesHands(LeavePools(s, p));
    VotesPhase(LeavePools(s, p));
  }

  lemma VotesPhase(s: State)
    requires s.phase in {Karaoke, Transition}
    ensures EvaluateVotes(s).phase in {Karaoke, Transition}
  {
    hide ThresholdMet;
  }

  lemma DepartPlayed(s: State, e: Event, w: World)
    requires s.phase in {Karaoke, Transition} && (e.Disconnect? || e.Kick?)
    ensures var t := Step(s, e, w); t.played == s.played && (s.phase == Transition ==> t.phase == Transition)
  {
    hide DailyWithout, EvaluateVotes, LeavePools, RemoveConn;
    match e
    case Disconnect(conn) =>
      var (reg, gone) := RemoveConn(s.reg, conn);
      if gone.Some? {
        LeavePlayed(s.(reg := reg), gone.value, w);
      }
    case Kick(p, ban) =>
      if p in s.reg.players {
        LeavePlayed(if ban then s.(reg := SetPlayer(s.reg, p, s.reg.players[p].(banned := true))) else s, p, w);
      }
  }

  predicate HandsOff(e: Event) {
    e.Connect? || e.Hello? || e.Heartbeat? || e.AdminAward? || e.StartGame? || e.ResetToLobby? || e.SetVolume?
    || e.EndDouble? || e.Rate? || e.LetterLockout? || e.LettersDone? || e.FadeRamp? || e.SoloPlay? || e.SoloStop?
    || e.Grade? || e.Buzz?
  }

  lemma QuietHands(s: State, e: Event, w: World)
    requires Between(s) && HandsOff(e)
    ensures SameHands(s, Step(s, e, w))
  {
    hide Step;
    if e.Connect? || e.Hello? || e.Heartbeat? || e.AdminAward? || e.Rate? || e.LetterLockout? || e.LettersDone? {
      PeopleHands(s, e, w);
    } else {
      OtherHands(s, e, w);
    }
  }

  lemma PeopleHands(s: State, e: Event, w: World)
    requires Between(s)
    requires e.Connect? || e.Hello? || e.Heartbeat? || e.AdminAward? || e.Rate? || e.LetterLockout? || e.LettersDone?
    ensures SameHands(s, Step(s, e, w))
  {
    hide IsMobile, Owner, Resolve, AddConn, SetPlayer, SetGuessed;
  }

  lemma OtherHands(s: State, e: Event, w: World)
    requires Between(s)
    requires e.StartGame? || e.ResetToLobby? || e.SetVolume? || e.EndDouble? || e.FadeRamp? || e.SoloPlay?
             || e.SoloStop? || e.Grade? || e.Buzz?
    ensures SameHands(s, Step(s, e, w))
  {
    hide ValidDeal, ClearScores, OnBoard, Owner;
  }

  lemma FiresHands(s: State, what: Deferred, w: World)
    requires Between(s)
    requires what.BuzzTimer? || what.AutoKaraoke? || (what.Fade? && !OnStage(s)) || s.phase != Transition
    ensures SameHands(s, OnFire(s, what, w)) || (OnStage(s) && what.Fade?)
  {
    hide ResolveWindow, FireCountdown, FireAutoKaraoke, FinishDaily;
    var s1 := s.(pending := s.pending - multiset{what});
    TimersIdle(s1, if what.Countdown? then 0 else what.key, w);
  }

  /** Late timers do nothing between rounds, apart from the countdown's own. */
  lemma TimersIdle(s: State, key: Key, w: World)
    requires s.phase in {Karaoke, Transition, DailyDouble}
    ensures ResolveWindow(s, key, w) == s && FireAutoKaraoke(s, key, w.now) == s
    ensures s.phase != Transition ==> FireCountdown(s, w) == s
  {
  }

  lemma VotesHands(s: State)
    ensures EvaluateVotes(s).played == s.played && (s.phase != Karaoke ==> EvaluateVotes(s) == s)
  {
    hide ThresholdMet;
  }

  lemma VotingHands(s: State, e: Event, w: World)
    requires Between(s) && (e.Vote? || e.SetThreshold? || e.PlayerSelect?)
    ensures Step(s, e, w).played == s.played && (s.phase != Karaoke ==> SameHands(s, Step(s, e, w)))
  {
    hide EvaluateVotes, Owner, SelectCell, Unplayed;
    match e
    case Vote(conn, _) =>
      if Owner(s.reg, conn).Some? {
        VotesHands(s.(gate := s.gate.(votes := s.gate.votes + {Owner(s.reg, conn).value})));
      }
    case SetThreshold(pct) => VotesHands(s.(gate := s.gate.(pct := Half(pct))));
    case PlayerSelect(_, _, _) =>
  }

  lemma SettledHands(s: State, e: Event, w: World)
    requires s.phase in {Karaoke, Transition} && (e.TrackEnded? || e.Decide? || e.Choose? || e.SkipDouble?)
    ensures Step(s, e, w).played == s.played && (s.phase != Karaoke ==> SameHands(s, Step(s, e, w)))
  {
    hide Owner;
  }

  // ---- From the pick to the round ----

  /** A countdown waits: only its own timer, or the admin, ends it; the pick is dropped exactly with its picker. */
  lemma CountdownKeeps(s: State, e: Event, w: World)
    requires s.phase == Transition && !Overrides(e) && e != Fire(Countdown)
    ensures var t := Step(s, e, w);
            && t.phase == Transition && t.played == s.played && t.board == s.board
            && t.gate.pick == (if PickerLeaves(s, e) then None else s.gate.pick)
            && t.gate.picker == (if PickerLeaves(s, e) then None else s.gate.picker)
  {
    hide Step, PickerLeaves;
    StepFramed(s, e, w);
    assert !e.Disconnect? && !e.Kick? ==> !PickerLeaves(s, e) by { OnlyDepartures(s, e); }
    if e.Disconnect? || e.Kick? {
      DepartHands(s, e, w);
      DepartPlayed(s, e, w);
    } else if HandsOff(e) {
      QuietHands(s, e, w);
    } else if e.Fire? {
      FireStep(s, e.what, w);
      FiresHands(s, e.what, w);
    } else if e.Vote? || e.SetThreshold? || e.PlayerSelect? {
      VotingHands(s, e, w);
    } else {
      SettledHands(s, e, w);
    }
  }

  lemma OnlyDepartures(s: State, e: Event)
    ensures PickerLeaves(s, e) ==> e.Disconnect? || e.Kick?
  {
  }

  /** Commands taken while a countdown runs. */
  predicate Waits(run: Run) {
    forall i :: 0 <= i < |run| ==> !Overrides(run[i].0) && run[i].0 != Fire(Countdown)
  }

  lemma {:induction false} CountdownCarries(s: State, run: Run)
    requires s.phase == Transition && Waits(run)
    ensures var t := After(s, run);
            && t.phase == Transition && t.played == s.played && t.board == s.board
            && t.gate.pick == (if PickerGone(s, run) then None else s.gate.pick)
            && (PickerGone(s, run) ==> t.gate.picker.None?)
    decreases |run|
  {
    hide Step, PickerLeaves, Overrides;
    if run != [] {
      var (e, w) := run[0];
      CountdownKeeps(s, e, w);
      CountdownCarries(Step(s, e, w), run[1..]);
      if PickerLeaves(s, e) {
        NobodyStays(Step(s, e, w), run[1..]);
      }
    }
  }

  /** Nobody becomes the picker of a running countdown. */
  lemma {:induction false} NobodyStays(s: State, run: Run)
    requires s.phase == Transition && s.gate.picker.None? && Waits(run)
    ensures After(s, run).gate.picker.None?
    decreases |run|
  {
    hide Step, PickerLeaves, Overrides;
    if run != [] {
      var (e, w) := run[0];
      CountdownKeeps(s, e, w);
      NobodyStays(Step(s, e, w), run[1..]);
    }
  }

  /** No command of a karaoke phase plays a track. */
  lemma KaraokePlayed(s: State, e: Event, w: World)
    requires s.phase == Karaoke && PhaseEvent(s, e)
    ensures Step(s, e, w).played == s.played && Step(s, e, w).board == s.board
  {
    hide Step, RemoveConn;
    StepFramed(s, e, w);
    if e.Disconnect? || e.Kick? {
      DepartPlayed(s, e, w);
    } else if HandsOff(e) {
      QuietHands(s, e, w);
    } else if e.Fire? {
      FireStep(s, e.what, w);
      FiresHands(s, e.what, w);
    } else if e.Vote? || e.SetThreshold? || e.PlayerSelect? {
      VotingHands(s, e, w);
    } else {
      SettledHands(s, e, w);
    }
  }

  /** The first pick of a phase was accepted on a cell with a track left, and it still has one at the end. */
  lemma {:induction false} PickStaysPlayable(s: State, run: Run)
    requires PhaseRun(s, run)
    ensures var t := After(s, run);
            && t.played == s.played && t.board == s.board
            && (FirstPick(s, run).Some? ==> Unplayed(t.board, t.played, FirstPick(s, run).value) != [])
    decreases |run|
  {
    hide Step, PhaseEvent, Unplayed, Owner;
    if run != [] {
      KaraokePlayed(s, run[0].0, run[0].1);
      PickStaysPlayable(Step(s, run[0].0, run[0].1), run[1..]);
    }
  }

  /**
   * The whole way from a clear karaoke phase to the next round: once both halves
   * have happened, in any order, and whatever comes in during the countdown, its
   * timer is in the bag and starts the first pick, a cell that is sure to have a
   * track left; if the picker leaves meanwhile, the board goes to the admin.
   */
  lemma PhasePlaysPick(s: State, phase: Run, wait: Run, w: World)
    requires Inv(s) && ClearEntry(s) && PhaseRun(s, phase) && Waits(wait)
    requires VoteHappens(s, phase) && FirstPick(s, phase).Some?
    ensures var c := FirstPick(s, phase).value;
            var v := After(s, phase);
            var u := After(v, wait);
            var t := Step(u, Fire(Countdown), w);
            && Countdown in u.pending
            && if PickerGone(v, wait) then t.phase == BoardUp && t.gate.picker.None? && !t.gate.ready
               else Started(u, c, t)
  {
    hide After, Step, Inv, PhaseRun, VoteHappens, FirstPick, PickerGone, ClearEntry, Unplayed, Started, Waits;
    var v := After(s, phase);
    var u := After(v, wait);
    GateIsConfluent(s, phase);
    PickStaysPlayable(s, phase);
    CountdownCarries(v, wait);
    Reachable(s, phase);
    Reachable(v, wait);
    CountdownPlays(u, w);
  }

  lemma CountdownPlays(s: State, w: World)
    requires Inv(s) && s.phase == Transition
    ensures Countdown in s.pending
    ensures var t := Step(s, Fire(Countdown), w);
            if s.gate.pick.Some? && Unplayed(s.board, s.played, s.gate.pick.value) != []
            then Started(s, s.gate.pick.value, t)
            else t.phase == BoardUp && t.gate.picker.None? && !t.gate.ready
  {
    hide FireCountdown, KeysFresh, BuzzInv, PointsInv, DailyInv, Unplayed;
    CountdownStartsPick(s.(pending := s.pending - multiset{Countdown}), w);
  }

  // ---- From the song to the payout ----

  lemma EndHands(s: State, e: Event, w: World)
    requires Inv(s) && OnStage(s)
    requires e.EndRound? || e.EndGame? || e.SkipDouble? || e.TrackEnded? || e.AdminReveal? || e.Fire?
    ensures OnStage(Step(s, e, w)) ==> SameHands(s, Step(s, e, w))
  {
    hide Step, FadeInv, PoolInv, RoundInv;
    if e.Fire? {
      FireStep(s, e.what, w);
      FireHands(s, e.what, w);
    } else {
      ShowEnds(s, e, w);
    }
  }

  /** The commands that end a performance do end it, unless the track that ended is Solo Karaoke's. */
  lemma ShowEnds(s: State, e: Event, w: World)
    requires OnStage(s) && s.round.track.Some?
    requires e.EndRound? || e.EndGame? || e.SkipDouble? || e.TrackEnded? || e.AdminReveal?
    ensures OnStage(Step(s, e, w)) ==> SameHands(s, Step(s, e, w))
  {
    hide FinishDaily, CloseRound;
    FinishView(s);
    CloseRoundView(ConsumeTrack(s), w.now);
  }

  lemma FireHands(s: State, what: Deferred, w: World)
    requires OnStage(s)
    ensures OnStage(OnFire(s, what, w)) ==> SameHands(s, OnFire(s, what, w))
  {
    hide FinishDaily, ResolveWindow, FireCountdown, FireAutoKaraoke;
    var s1 := s.(pending := s.pending - multiset{what});
    FinishView(s1);
    StageIdle(s1, Unknown, 0, 0, 0, if what.Countdown? then 0 else what.key, w);
  }

  lemma SettingHands(s: State, e: Event, w: World)
    requires OnStage(s) && (e.AdminSelect? || e.Decide? || e.Choose?)
    ensures Step(s, e, w) == s
  {
    hide Owner;
  }

  /** While a performance is on stage its performer stays on record until that player leaves. */
  lemma StageKeeps(s: State, e: Event, w: World)
    requires Inv(s) && OnStage(s) && OnStage(Step(s, e, w))
    ensures Step(s, e, w).gate.picker == (if PickerLeaves(s, e) then None else s.gate.picker)
  {
    hide Step, Inv, PickerLeaves;
    assert !e.Disconnect? && !e.Kick? ==> !PickerLeaves(s, e) by { OnlyDepartures(s, e); }
    if e.Disconnect? || e.Kick? {
      DepartHands(s, e, w);
    } else if HandsOff(e) {
      QuietHands(s, e, w);
    } else if e.Vote? || e.SetThreshold? || e.PlayerSelect? {
      VotingHands(s, e, w);
    } else if e.AdminSelect? || e.Decide? || e.Choose? {
      SettingHands(s, e, w);
    } else {
      EndHands(s, e, w);
    }
  }

  /** A performance stays on stage throughout. */
  ghost predicate StageRun(s: State, run: Run)
    decreases |run|
  {
    OnStage(s) && (run != [] ==> StageRun(Step(s, run[0].0, run[0].1), run[1..]))
  }

  lemma {:induction false} StageCarries(s: State, run: Run)
    requires Inv(s) && StageRun(s, run)
    ensures var t := After(s, run);
            && Inv(t) && OnStage(t) && t.round == s.round && t.ledger.paid == s.ledger.paid
            && t.gate.picker == (if PickerGone(s, run) then None else s.gate.picker)
    decreases |run|
  {
    hide Step, Inv, PickerLeaves, OnStage;
    if run != [] {
      var (e, w) := run[0];
      StepInv(s, e, w);
      LeavingPays(s, e, w);
      StageKeeps(s, e, w);
      StageCarries(Step(s, e, w), run[1..]);
    }
  }

  lemma FinishCredits(s: State)
    requires PayInv(s)
    ensures FinishDaily(s).reg.players ==
            if s.gate.picker.None? then s.reg.players
            else Credit(s.reg.players, s.gate.picker.value, Scoring.Payout(s.round.row, s.dd.ratings))
  {
    hide Scoring.Payout;
  }

  function Credit(players: map<PlayerId, Player>, p: PlayerId, points: int): map<PlayerId, Player> {
    if p !in players then players else players[p := players[p].(score := players[p].score + points)]
  }

  /** Whatever ends a performance credits the payout to the performer on record, and moves no other score. */
  lemma EndingCredits(s: State, e: Event, w: World)
    requires Inv(s) && OnStage(s) && !OnStage(Step(s, e, w))
    ensures Step(s, e, w).reg.players ==
            if s.gate.picker.None? || e.AdminReveal? then s.reg.players
            else Credit(s.reg.players, s.gate.picker.value, Scoring.Payout(s.round.row, s.dd.ratings))
  {
    if e.EndRound? || e.EndGame? || e.SkipDouble? || e.TrackEnded? || e.AdminReveal? {
      hide Step, Inv, OnStage, Credit;
      EndCredits(s, e, w);
    } else if e.Fire? {
      hide Step, Inv;
      FireStep(s, e.what, w);
      FadeCredits(s, e.what, w);
    } else if e.Disconnect? || e.Kick? {
      hide Step, Inv;
      DepartStays(s, e, w);
    } else {
      hide Step, Inv;
      OtherStage(s, e, w);
    }
  }

  lemma EndCredits(s: State, e: Event, w: World)
    requires Inv(s) && OnStage(s) && !OnStage(Step(s, e, w))
    requires e.EndRound? || e.EndGame? || e.SkipDouble? || e.TrackEnded? || e.AdminReveal?
    ensures Step(s, e, w).reg.players ==
            if s.gate.picker.None? || e.AdminReveal? then s.reg.players
            else Credit(s.reg.players, s.gate.picker.value, Scoring.Payout(s.round.row, s.dd.ratings))
  {
    hide FinishDaily, CloseRound, RoundInv, FadeInv, PoolInv, Credit, Scoring.Payout;
    FinishCredits(s);
    CloseRoundView(ConsumeTrack(s), w.now);
  }

  lemma FadeCredits(s: State, what: Deferred, w: World)
    requires Inv(s) && OnStage(s) && !OnStage(OnFire(s, what, w))
    ensures OnFire(s, what, w).reg.players ==
            if s.gate.picker.None? then s.reg.players
            else Credit(s.reg.players, s.gate.picker.value, Scoring.Payout(s.round.row, s.dd.ratings))
  {
    hide FinishDaily, RoundInv, FadeInv, PoolInv, Credit, Scoring.Payout, ResolveWindow, FireCountdown, FireAutoKaraoke;
    var s1 := s.(pending := s.pending - multiset{what});
    FinishCredits(s1);
    StageIdle(s1, Unknown, 0, 0, 0, if what.Countdown? then 0 else what.key, w);
  }

  lemma ChoosePerformer(s: State, e: Event, w: World)
    requires e.Choose? && Step(s, e, w).ledger.performances > s.ledger.performances
    ensures s.dd.offer.Some? && Owner(s.reg, e.conn) == Some(s.dd.offer.value.contestant)
    ensures OnStage(Step(s, e, w)) && Step(s, e, w).gate.picker == Owner(s.reg, e.conn)
  {
    hide Decline, Unchosen, PresentMobile;
    DeclinePerforms(s, w);
  }

  /**
   * A Daily Double pays whoever chose its song: from the choice, over any run on
   * stage, to whatever ends it, the payout goes to the offered contestant, who
   * sent the choice, exactly when that player has not left and no reveal cut the
   * performance off; and then and only then is the performance paid.
   */
  lemma PerformerIsPaid(s: State, e: Event, w: World, run: Run, f: Event, x: World) returns (p: PlayerId)
    requires Inv(s) && e.Choose? && Step(s, e, w).ledger.performances > s.ledger.performances
    requires StageRun(Step(s, e, w), run)
    requires !OnStage(Step(After(Step(s, e, w), run), f, x))
    ensures s.dd.offer.Some? && s.dd.offer.value.contestant == p && Owner(s.reg, e.conn) == Some(p)
    ensures var t := Step(s, e, w);
            var u := After(t, run);
            var z := Step(u, f, x);
            if PickerGone(t, run) || f.AdminReveal? then
              z.ledger.paid == t.ledger.paid && z.reg.players == u.reg.players
            else
              && z.ledger.paid == t.ledger.paid + multiset{t.round.key}
              && z.reg.players == Credit(u.reg.players, p, Scoring.Payout(t.round.row, u.dd.ratings))
  {
    hide Step, After, StageRun, PickerGone, Inv, OnStage, Credit, Scoring.Payout;
    var t := Step(s, e, w);
    var u := After(t, run);
    ChoosePerformer(s, e, w);
    p := s.dd.offer.value.contestant;
    StepInv(s, e, w);
    StageCarries(t, run);
    LeavingPays(u, f, x);
    EndingCredits(u, f, x);
  }
}
