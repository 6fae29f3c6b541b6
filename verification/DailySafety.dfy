/**
 * What every command keeps about Daily Double performances: each is paid at
 * most once, fades belong to the performance they were started for, raters and
 * voters are people who are still here, and the volume comes back.
 */
module DailySafety {
  import opened Common
  import opened Registry
  import opened BuzzWindow
  import opened EngineState
  import opened RoundSafety
  import Scoring

  /** A performance is live: a Daily Double whose offer has been taken up. */
  predicate OnStage(s: State) {
    s.phase == DailyDouble && s.dd.offer.None?
  }

  ghost predicate PayInv(s: State) {
    && (forall k :: k in s.ledger.paid ==> k < s.nextKey && s.ledger.paid[k] == 1)
    && (OnStage(s) ==> s.round.track.Some? && s.round.key !in s.ledger.paid)
    && (s.gate.picker.Some? ==> s.gate.picker.value in s.reg.players)
  }

  ghost predicate FadeInv(s: State) {
    && s.dd.fading < s.nextKey
    && (s.round.track.Some? ==> 0 < s.round.key)
    && (forall k :: s.pending[Fade(k)] <= 1)
    && Fade(0) !in s.pending
    && (Fade(s.round.key) in s.pending ==> s.dd.fading == s.round.key)
    && ((forall k :: Fade(k) !in s.pending) ==> s.volume.sent == s.volume.pct)
  }

  ghost predicate PoolInv(s: State) {
    && (forall p :: p in s.gate.pool ==> Online(s.reg, p))
    && (forall p :: p in s.dd.ratingPool ==> Online(s.reg, p))
    && s.dd.ratings.Keys <= s.dd.ratingPool
    && Scoring.ValidRatings(s.dd.ratings)
  }

  ghost predicate DailyInv(s: State) {
    PayInv(s) && FadeInv(s) && PoolInv(s)
  }

  ghost predicate Inv(s: State) {
    RoundInv(s) && DailyInv(s)
  }

  // ---- The shared steps ----

  lemma StartTrackDaily(s: State, c: Coord, t: TrackId, now: int)
    requires KeysFresh(s) && DailyInv(s.(phase := BoardUp))
    ensures DailyInv(StartTrack(s, c, t, now))
  {
    hide Connected;
    assert Fade(s.nextKey) !in s.pending;
  }

  lemma StartCellDaily(s: State, c: Coord, w: World)
    requires KeysFresh(s) && DailyInv(s.(phase := BoardUp))
    ensures DailyInv(StartCellNormally(s, c, w))
  {
    hide Unplayed, StartTrack, Connected;
    if Unplayed(s.board, s.played, c) != [] {
      StartTrackDaily(s, c, Pick(Unplayed(s.board, s.played, c), w.track), w.now);
    }
  }

  lemma BeginOfferDaily(s: State, c: Coord, w: World)
    requires KeysFresh(s) && DailyInv(s.(phase := BoardUp))
    ensures DailyInv(BeginOffer(s, c, w))
  {
    hide StartCellNormally, OpenOffer, Filter, PresentMobile, Present, Connected;
    StartCellDaily(Unflag(s, c), c, w);
    forall p: PlayerId {
      OpenOfferDaily(s, c, p);
    }
  }

  lemma OpenOfferDaily(s: State, c: Coord, p: PlayerId)
    requires KeysFresh(s) && DailyInv(s.(phase := BoardUp))
    ensures DailyInv(OpenOffer(s, c, p))
  {
    hide Connected;
  }

  lemma SelectDaily(s: State, c: Coord, w: World)
    requires Inv(s)
    ensures DailyInv(SelectCell(s, c, w))
  {
    hide BeginOffer, Unplayed, StartTrack, Fires, Visits, Connected, BuzzInv, PointsInv;
    if !Busy(s) && Unplayed(s.board, s.played, c) != [] {
      var s2 := Visit(DropPick(s), c);
      BeginOfferDaily(s2, c, w);
      StartTrackDaily(s2, c, Pick(Unplayed(s2.board, s2.played, c), w.track), w.now);
    }
  }

  /** Re-arming only touches the flags. */
  lemma RearmFrame(s: State, declined: Coord, die: nat)
    ensures var r := Rearm(s, declined, die);
            r == s.(dd := s.dd.(trigger := r.dd.trigger))
  {
    hide Filter, Heirs, Visits;
  }

  lemma DeclineDaily(s: State, w: World)
    requires Inv(s)
    ensures DailyInv(Decline(s, w))
  {
    hide StartCellNormally, Rearm, Connected;
    if s.phase == DailyDouble && s.dd.offer.Some? {
      var o := s.dd.offer.value;
      var s1 := Unflag(s, o.cell);
      var s2 := s1.(dd := s1.dd.(bucket := s1.dd.bucket + o.candidates, offer := None));
      RearmFrame(s2, o.cell, w.cell);
      StartCellDaily(Rearm(s2, o.cell, w.cell), o.cell, w);
    }
  }

  lemma VotersOnline(r: Reg)
    ensures forall p :: p in Voters(r) || p in PresentMobile(r) ==> Online(r, p)
  {
  }

  lemma CloseRoundDaily(s: State, now: int)
    requires DailyInv(s.(phase := BoardUp))
    ensures DailyInv(CloseRound(s, now))
  {
    hide Voters, Connected;
    VotersOnline(s.reg);
  }

  lemma RevealDaily(s: State, now: int)
    requires DailyInv(s)
    ensures DailyInv(RevealNow(s, now))
  {
    hide CloseRound, Connected;
    CloseRoundDaily(ConsumeTrack(s), now);
  }

  lemma FinishDailyKeeps(s: State)
    requires Inv(s) && s.phase == DailyDouble
    ensures DailyInv(FinishDaily(s))
  {
    hide Scoring.Payout, Connected, Award;
    if s.gate.picker.Some? && s.gate.picker.value in s.reg.players {
      AwardFrame(s, s.gate.picker.value, Scoring.Payout(s.round.row, s.dd.ratings), s.pending);
    }
  }

  lemma EndRoundDaily(s: State, w: World)
    requires Inv(s)
    ensures DailyInv(EndRoundNow(s, w))
  {
    hide Decline, FinishDaily, Connected, Scoring.MaxPointsForRow;
    DeclineDaily(s, w);
    if s.phase == DailyDouble {
      FinishDailyKeeps(s);
    }
  }

  /** Moving the gate or starting the countdown concerns no performance. */
  lemma GateDaily(s: State)
    requires DailyInv(s)
    ensures DailyInv(ClearGate(s)) && DailyInv(BeginTransition(ClearGate(s))) && DailyInv(BeginTransition(s))
    ensures DailyInv(ConditionMet(s))
  {
    hide Connected;
    var t := BeginTransition(s);
    assert forall k :: s.pending[Fade(k)] == t.pending[Fade(k)];
  }

  lemma VotesDaily(s: State)
    requires DailyInv(s)
    ensures DailyInv(EvaluateVotes(s))
  {
    hide ThresholdMet, ConditionMet, Connected;
    GateDaily(s);
  }

  lemma FadeOutDaily(s: State)
    requires Inv(s)
    ensures DailyInv(FadeOut(s))
  {
    hide Connected;
    var t := FadeOut(s);
    assert Fade(s.round.key) in t.pending || t == s;
  }

  lemma LeaveDaily(s: State, p: PlayerId, w: World)
    requires RoundInv(s) && DailyInv(LeavePools(s, p))
    ensures DailyInv(DailyWithout(EvaluateVotes(LeavePools(s, p)), p, w))
  {
    hide EvaluateVotes, Decline, FadeOut, LeavePools;
    var s1 := LeavePools(s, p);
    assert RoundInv(s1) by { LeavePoolsRound(s, p); }
    VotesSafe(s1);
    VotesDaily(s1);
    var s2 := EvaluateVotes(s1);
    DeclineDaily(s2, w);
    FadeOutDaily(s2);
  }

  lemma LeavePoolsRound(s: State, p: PlayerId)
    requires RoundInv(s)
    ensures RoundInv(LeavePools(s, p))
  {
  }

  /** Leaving the pools makes room for the player to be offline. */
  lemma LeavePoolsDaily(s: State, p: PlayerId, reg: Reg)
    requires Inv(s)
    requires reg.players == s.reg.players
    requires forall q :: q != p && Online(s.reg, q) ==> Online(reg, q)
    ensures DailyInv(LeavePools(s.(reg := reg), p))
  {
  }

  lemma PerformDaily(s: State, p: PlayerId, song: TrackId, w: World)
    requires Inv(s) && s.phase == DailyDouble && s.dd.offer.Some? && p in s.reg.players
    ensures DailyInv(StartPerformance(s, p, song, w))
  {
    hide Decline, Unchosen, PresentMobile, Connected;
    DeclineDaily(s, w);
    VotersOnline(s.reg);
    assert Fade(s.nextKey) !in s.pending;
  }

  // ---- Buzzing and grading ----

  lemma ResolveDaily(s: State, key: Key, w: World)
    requires DailyInv(s)
    ensures DailyInv(ResolveWindow(s, key, w))
  {
    hide Winner, Eligible, Connected, CloseWindow;
    forall t: State {
      CloseWindowDaily(t);
    }
  }

  lemma CloseWindowDaily(s: State)
    ensures DailyInv(s) <==> DailyInv(CloseWindow(s))
  {
    hide Connected;
  }

  lemma BuzzDaily(s: State, conn: ConnId, nonce: nat, arrival: int, w: World)
    requires DailyInv(s)
    ensures DailyInv(OnBuzz(s, conn, nonce, arrival, w))
  {
    hide ResolveWindow, Enqueue, Connected;
    var who := Owner(s.reg, conn);
    if who.Some? {
      var s1 := s.(round := s.round.(windowOpen := true, contenders := [Contender(who.value, conn, arrival)]));
      ResolveDaily(s1, s1.round.key, w);
    }
  }

  lemma GradeDaily(s: State, v: Verdict, w: World)
    requires Inv(s)
    ensures DailyInv(OnGrade(s, v, w))
  {
    hide GradeCorrect, GradePartial, Connected, Scoring.MaxPointsForRow, KeysFresh, GateIdle, PointsInv;
    if s.phase == Adjudicate {
      var p := s.round.winner.value;
      var s1 := s.(reg := SetPlayer(s.reg, p, s.reg.players[p].(guessed := true)));
      var s2 := s1.(ledger := s1.ledger.(graded := s1.ledger.graded + {(s.round.track.value, p)}));
      CorrectDaily(s2, p, w.now);
      PartialDaily(s2, p, w.now);
    }
  }

  lemma CorrectDaily(s: State, p: PlayerId, now: int)
    requires DailyInv(s) && s.phase == Adjudicate && p in s.reg.players
    ensures DailyInv(GradeCorrect(s, p, now))
  {
    hide CloseRound, Connected, Scoring.PoolPoints;
    var (ceiling, floor) := RoundPool(s.round);
    var s1 := AwardRound(s, p, Scoring.PoolPoints(ceiling, floor, s.round.pausedMs));
    CloseRoundDaily(ConsumeTrack(s1.(gate := s1.gate.(picker := Some(p)))), now);
  }

  lemma PartialDaily(s: State, p: PlayerId, now: int)
    requires DailyInv(s) && s.phase == Adjudicate && p in s.reg.players
    ensures DailyInv(GradePartial(s, p, now))
  {
    hide CloseRound, Connected, PoolAfterPartial;
    var s1 := AwardRound(s, p, Scoring.PARTIAL);
    var s2 := s1.(round := s1.round.(partial := Some(PoolAfterPartial(s.round))));
    CloseRoundDaily(ConsumeTrack(s2), now);
  }

  // ---- Deferred work ----

  lemma FireCountdownDaily(s: State, w: World)
    requires DailyInv(s) && (s.phase == Transition ==> KeysFresh(s) && PointsInv(s))
    ensures DailyInv(FireCountdown(s, w))
  {
    hide SelectCell, Unplayed, Connected;
    if s.phase == Transition {
      var s1 := TransitionTo(
        s.(round := s.round.(track := None, cell := None), gate := s.gate.(pick := None)), BoardUp);
      OutOfPlaySafe(s1);
      if s.gate.pick.Some? {
        SelectDaily(s1, s.gate.pick.value, w);
      }
    }
  }

  lemma FireFadeDaily(s: State, key: Key)
    requires Inv(s) && Fade(key) in s.pending
    ensures DailyInv(FireFade(s.(pending := s.pending - multiset{Fade(key)}), key))
  {
    hide FinishDaily, PayInv, PoolInv, KeysFresh, BuzzInv, GateIdle, PointsInv;
    if Performing(s) {
      FinishDailyKeeps(s);
      FinishFrame(s, s.pending - multiset{Fade(key)});
    }
    var mid := if s.round.key == key && Performing(s) then FinishDaily(s) else s;
    QuietVolume(mid, FireFade(s.(pending := s.pending - multiset{Fade(key)}), key));
    var p1 := s.pending - multiset{Fade(key)};
    assert forall k :: Fade(k) in p1 <==> k != key && Fade(k) in s.pending;
  }

  /** Volume, fades and the bag concern neither the payments nor the pools. */
  lemma QuietVolume(s: State, t: State)
    requires t == s.(pending := t.pending, volume := t.volume, dd := s.dd.(fading := t.dd.fading))
    ensures PayInv(t) == PayInv(s) && PoolInv(t) == PoolInv(s)
  {
    hide Connected;
  }

  lemma AwardFrame(s: State, p: PlayerId, points: int, pending: multiset<Deferred>)
    requires p in s.reg.players
    ensures var r := Award(s, p, points);
            && Award(s.(pending := pending), p, points) == r.(pending := pending)
            && r == s.(reg := r.reg, dd := s.dd.(lastScorer := r.dd.lastScorer))
            && r.reg.byPlayer == s.reg.byPlayer && r.reg.players.Keys == s.reg.players.Keys
  {
  }

  /** finishDailyDouble neither reads nor writes the bag of deferred work. */
  lemma FinishFrame(s: State, pending: multiset<Deferred>)
    ensures FinishDaily(s.(pending := pending)) == FinishDaily(s).(pending := pending)
    ensures FinishDaily(s).pending == s.pending && FinishDaily(s).volume == s.volume
    ensures FinishDaily(s).dd.fading == s.dd.fading && FinishDaily(s).round.key == s.round.key
  {
    hide Award, Scoring.Payout;
    if s.gate.picker.Some? && s.gate.picker.value in s.reg.players {
      AwardFrame(s, s.gate.picker.value, Scoring.Payout(s.round.row, s.dd.ratings), pending);
    }
  }

  lemma DropDeferred(s: State, what: Deferred)
    requires DailyInv(s) && !what.Fade?
    ensures DailyInv(s.(pending := s.pending - multiset{what}))
  {
    hide Connected;
    assert forall k :: (s.pending - multiset{what})[Fade(k)] == s.pending[Fade(k)];
  }

  lemma AutoKaraokeDaily(s: State, key: Key, now: int)
    requires DailyInv(s)
    ensures DailyInv(FireAutoKaraoke(s, key, now))
  {
    hide CloseRound, Connected;
    if s.phase in {RoundActive, Locked} {
      CloseRoundDaily(ConsumeTrack(s), now);
    }
  }

  lemma FireDaily(s: State, what: Deferred, w: World)
    requires Inv(s)
    ensures DailyInv(OnFire(s, what, w))
  {
    hide ResolveWindow, FireCountdown, FireFade, FireAutoKaraoke, PayInv, FadeInv, PoolInv, BuzzInv, GateIdle;
    if what in s.pending {
      var s1 := s.(pending := s.pending - multiset{what});
      if !what.Fade? {
        DropDeferred(s, what);
      }
      match what
      case BuzzTimer(key) => ResolveDaily(s1, key, w);
      case Countdown => FireCountdownDaily(s1, w);
      case Fade(key) => FireFadeDaily(s, key);
      case AutoKaraoke(key) => AutoKaraokeDaily(s1, key, w.now);
    }
  }

  // ---- The rest ----

  lemma DisconnectDaily(s: State, conn: ConnId, w: World)
    requires Inv(s)
    ensures DailyInv(OnDisconnect(s, conn, w))
  {
    hide DailyWithout, EvaluateVotes, LeavePools;
    hide RemoveConn, Connected, ClearGate, BeginTransition;
    var (reg, gone) := RemoveConn(s.reg, conn);
    RemoveConnOnline(s.reg, conn);
    if gone.Some? {
      LeavePoolsDaily(s, gone.value, reg);
      LeaveDaily(s.(reg := reg), gone.value, w);
      GateDaily(DailyWithout(EvaluateVotes(LeavePools(s.(reg := reg), gone.value)), gone.value, w));
    }
  }

  lemma RemoveConnOnline(r: Reg, conn: ConnId)
    ensures var (s, gone) := RemoveConn(r, conn);
            && s.players == r.players
            && (forall q :: Online(r, q) && gone != Some(q) ==> Online(s, q))
  {
  }

  lemma BanInv(s: State, p: PlayerId)
    requires Inv(s) && p in s.reg.players
    ensures Inv(s.(reg := SetPlayer(s.reg, p, s.reg.players[p].(banned := true))))
  {
    hide Connected, Scoring.MaxPointsForRow;
  }

  lemma KickDaily(s: State, p: PlayerId, ban: bool, w: World)
    requires Inv(s)
    ensures DailyInv(OnKick(s, p, ban, w))
  {
    hide DailyWithout, EvaluateVotes, LeavePools, ClearGate, Connected, RoundInv, DailyInv;
    if p in s.reg.players {
      var s1 := if ban then s.(reg := SetPlayer(s.reg, p, s.reg.players[p].(banned := true))) else s;
      BanInv(s, p);
      LeavePoolsDaily(s1, p, s1.reg);
      LeaveDaily(s1, p, w);
      GateDaily(DailyWithout(EvaluateVotes(LeavePools(s1, p)), p, w));
    }
  }

  lemma VoteDaily(s: State, conn: ConnId, nonce: nat)
    requires Inv(s)
    ensures DailyInv(OnVote(s, conn, nonce))
  {
    hide EvaluateVotes, Connected;
    if Owner(s.reg, conn).Some? {
      VotesDaily(s.(gate := s.gate.(votes := s.gate.votes + {Owner(s.reg, conn).value})));
    }
  }

  lemma ThresholdDaily(s: State, pct: int)
    requires Inv(s)
    ensures DailyInv(OnSetThreshold(s, pct))
  {
    hide EvaluateVotes, Connected, Scoring.MaxPointsForRow;
    VotesDaily(s.(gate := s.gate.(pct := Half(pct))));
  }

  lemma SelectPlayerDaily(s: State, conn: ConnId, nonce: nat, c: Coord, w: World)
    requires Inv(s)
    ensures DailyInv(OnPlayerSelect(s, conn, nonce, c, w))
  {
    hide SelectCell, PickAccepted, Connected;
    SelectDaily(s, c, w);
    PickPhase(s, conn, nonce, c);
  }

  lemma TrackEndedDaily(s: State, queueOver: bool, w: World)
    requires Inv(s)
    ensures DailyInv(OnTrackEnded(s, queueOver, w))
  {
    hide EndRoundNow, FinishDaily, ConditionMet, Connected, KeysFresh, BuzzInv, GateIdle, PointsInv;
    GateDaily(s);
    EndRoundDaily(s, w);
    if s.phase == DailyDouble {
      FinishDailyKeeps(s);
    }
  }

  lemma DecideDaily(s: State, conn: ConnId, nonce: nat, accept: bool, w: World)
    requires Inv(s)
    ensures DailyInv(OnDecide(s, conn, nonce, accept, w))
  {
    hide Decline, Shuffled, Connected, KeysFresh, BuzzInv, GateIdle, PointsInv;
    DeclineDaily(s, w);
  }

  lemma ChooseDaily(s: State, conn: ConnId, nonce: nat, song: TrackId, w: World)
    requires Inv(s)
    ensures DailyInv(OnChoose(s, conn, nonce, song, w))
  {
    hide StartPerformance, PayInv, FadeInv, PoolInv, RoundInv;
    if FromContestant(s, conn, nonce) {
      PerformDaily(s, s.dd.offer.value.contestant, song, w);
    }
  }

  lemma SkipDailyKeeps(s: State, w: World)
    requires Inv(s)
    ensures DailyInv(SkipDaily(s, w))
  {
    hide FinishDaily, Decline, PayInv, FadeInv, PoolInv, RoundInv;
    DeclineDaily(s, w);
    if s.phase == DailyDouble {
      FinishDailyKeeps(s);
    }
  }

  lemma GameDaily(s: State, e: Event, w: World)
    requires Inv(s)
    requires e.StartGame? || e.ResetToLobby? || e.EndGame?
    ensures DailyInv(Step(s, e, w))
  {
    hide OnStartGame, OnReset, FinishDaily, Connected, RoundInv, DailyInv;
    match e
    case StartGame => StartDaily(s, w.deal);
    case ResetToLobby => ResetDaily(s);
    case EndGame => EndGameDaily(s);
  }

  lemma StartDaily(s: State, deal: set<Coord>)
    requires DailyInv(s)
    ensures DailyInv(OnStartGame(s, deal))
  {
    hide ValidDeal, Connected;
  }

  lemma ResetDaily(s: State)
    requires Inv(s)
    ensures DailyInv(OnReset(s))
  {
    hide OnBoard, Connected, BuzzInv, GateIdle, PointsInv;
  }

  lemma EndGameDaily(s: State)
    requires Inv(s)
    ensures DailyInv(OnEndGame(s))
  {
    hide FinishDaily, Connected, BuzzInv, GateIdle, PointsInv;
    if Performing(s) {
      FinishDailyKeeps(s);
    }
  }

  lemma QuietDaily(s: State, e: Event, w: World)
    requires Inv(s)
    requires e.Connect? || e.SetVolume? || e.Rate? || e.FadeRamp? || e.SoloPlay? || e.SoloStop?
    ensures DailyInv(Step(s, e, w))
  {
    hide Connected, IsMobile, RoundInv;
  }

  lemma LettersDaily(s: State, key: Key)
    requires Inv(s)
    ensures DailyInv(LockOut(s, key)) && DailyInv(ScheduleAutoKaraoke(s, key))
  {
    hide Connected, IsMobile, RoundInv;
    assert forall k :: s.pending[Fade(k)] == ScheduleAutoKaraoke(s, key).pending[Fade(k)];
  }

  lemma PeopleDaily(s: State, e: Event, w: World)
    requires Inv(s) && (e.Heartbeat? || e.AdminAward?)
    ensures DailyInv(Step(s, e, w))
  {
    hide Connected, IsMobile, RoundInv;
  }

  lemma HelloDaily(s: State, conn: ConnId, role: Role, fp: Option<nat>)
    requires Inv(s)
    ensures DailyInv(OnHello(s, conn, role, fp))
  {
    assert forall p :: Online(s.reg, p) ==> Online(OnHello(s, conn, role, fp).reg, p);
  }

  lemma DailyStep(s: State, e: Event, w: World)
    requires Inv(s)
    ensures DailyInv(Step(s, e, w))
  {
    hide OnHello, OnDisconnect, OnKick, OnSetThreshold, OnVote, SelectCell, RevealNow, EndRoundNow, OnGrade,
         OnBuzz, OnPlayerSelect, OnTrackEnded, OnFire, SkipDaily, FadeOut, OnDecide, OnChoose, LockOut,
         ScheduleAutoKaraoke,
         PayInv, FadeInv, PoolInv, RoundInv;
    match e
    case Hello(conn, role, fp) => HelloDaily(s, conn, role, fp);
    case Disconnect(conn) => DisconnectDaily(s, conn, w);
    case Kick(p, ban) => KickDaily(s, p, ban, w);
    case SetThreshold(pct) => ThresholdDaily(s, pct);
    case Vote(conn, nonce) => VoteDaily(s, conn, nonce);
    case StartGame => GameDaily(s, e, w);
    case ResetToLobby => GameDaily(s, e, w);
    case EndGame => GameDaily(s, e, w);
    case SkipDouble => SkipDailyKeeps(s, w);
    case EndDouble => FadeOutDaily(s);
    case Decide(conn, nonce, accept) => DecideDaily(s, conn, nonce, accept, w);
    case Choose(conn, nonce, song) => ChooseDaily(s, conn, nonce, song, w);
    case AdminSelect(at) => SelectDaily(s, at, w);
    case AdminReveal => RevealDaily(s, w.now);
    case EndRound => EndRoundDaily(s, w);
    case Grade(v) => GradeDaily(s, v, w);
    case Buzz(conn, nonce, arrival) => BuzzDaily(s, conn, nonce, arrival, w);
    case PlayerSelect(conn, nonce, at) => SelectPlayerDaily(s, conn, nonce, at, w);
    case TrackEnded(queueOver) => TrackEndedDaily(s, queueOver, w);
    case Fire(what) => FireDaily(s, what, w);
    case Heartbeat(_) => PeopleDaily(s, e, w);
    case AdminAward(_, _) => PeopleDaily(s, e, w);
    case LetterLockout(key) => LettersDaily(s, key);
    case LettersDone(key) => LettersDaily(s, key);
    case _ => QuietDaily(s, e, w);
  }

  /** The whole invariant holds in every state that any run from a fresh engine can reach. */
  lemma {:induction false} Reachable(s: State, run: Run)
    requires Inv(s)
    ensures Inv(After(s, run))
    decreases |run|
  {
    if run != [] {
      RoundStep(s, run[0].0, run[0].1);
      DailyStep(s, run[0].0, run[0].1);
      Reachable(Step(s, run[0].0, run[0].1), run[1..]);
    }
  }

  lemma InitInv(s: State)
    requires Init(s)
    ensures Inv(s)
  {
  }
}
