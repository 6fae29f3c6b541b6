/**
 * The picker-and-vote gate that leaves KARAOKE: when it is clear, when it can
 * lose a wakeup, and that the order in which its two halves happen is immaterial.
 */
module GateTheory {
  import opened Common
  import opened Registry
  import opened BuzzWindow
  import opened EngineState
  import opened RoundSafety
  import opened DailySafety

  // ---- What the larger handlers do to the gate ----

  lemma StartCellView(s: State, c: Coord, w: World)
    ensures var r := StartCellNormally(s, c, w);
            && r.gate == s.gate && r.reg.byPlayer == s.reg.byPlayer
            && r.phase == if Unplayed(s.board, s.played, c) == [] then BoardUp else RoundActive
  {
    hide Unplayed;
  }

  lemma BeginOfferView(s: State, c: Coord, w: World)
    ensures var r := BeginOffer(s, c, w);
            && r.gate == s.gate && r.reg.byPlayer == s.reg.byPlayer
            && (Unplayed(s.board, s.played, c) != [] ==> r.phase in {RoundActive, DailyDouble})
            && r.phase in {RoundActive, DailyDouble, BoardUp}
  {
    hide StartCellNormally, Unplayed, Filter, PresentMobile, Present;
    StartCellView(Unflag(s, c), c, w);
  }

  lemma SelectView(s: State, c: Coord, w: World)
    ensures var r := SelectCell(s, c, w);
            && (Busy(s) ==> r == s)
            && (!Busy(s) ==> r.gate == DropPick(s).gate && r.reg.byPlayer == s.reg.byPlayer)
            && (!Busy(s) && Unplayed(s.board, s.played, c) == [] ==> r == DropPick(s))
            && (!Busy(s) && Unplayed(s.board, s.played, c) != [] ==> r.phase in {RoundActive, DailyDouble})
  {
    hide BeginOffer, Unplayed, Fires, Visits;
    BeginOfferView(Visit(DropPick(s), c), c, w);
  }

  lemma DeclineView(s: State, w: World)
    ensures var r := Decline(s, w);
            && r.gate == s.gate && r.reg.byPlayer == s.reg.byPlayer
            && (r == s || r.phase in {RoundActive, BoardUp})
  {
    hide StartCellNormally, Rearm;
    if s.phase == DailyDouble && s.dd.offer.Some? {
      var o := s.dd.offer.value;
      var s1 := Unflag(s, o.cell);
      var s2 := s1.(dd := s1.dd.(bucket := s1.dd.bucket + o.candidates, offer := None));
      RearmFrame(s2, o.cell, w.cell);
      StartCellView(Rearm(s2, o.cell, w.cell), o.cell, w);
    }
  }

  lemma FinishView(s: State)
    ensures var r := FinishDaily(s);
            && r.phase == BoardUp && r.reg.byPlayer == s.reg.byPlayer
            && (r.gate == s.gate || r.gate == s.gate.(picker := None))
            && (s.gate.picker.Some? && s.gate.picker.value in s.reg.players ==> r.gate == s.gate)
  {
  }

  lemma EndRoundView(s: State, w: World)
    ensures var r := EndRoundNow(s, w);
            && r.reg.byPlayer == s.reg.byPlayer
            && r.phase in {BoardUp, RoundActive, DailyDouble}
            && (r.gate == s.gate || r.gate == s.gate.(picker := None))
            && (s.gate.picker.Some? && s.gate.picker.value in s.reg.players ==> r.gate == s.gate)
  {
    hide Decline, FinishDaily;
    DeclineView(s, w);
    FinishView(s);
  }

  lemma ResolveView(s: State, key: Key, w: World)
    ensures var r := ResolveWindow(s, key, w);
            && r.gate == s.gate && r.reg.byPlayer == s.reg.byPlayer
            && (r.phase == s.phase || r.phase == Adjudicate)
            && (s.phase != RoundActive ==> r == s)
  {
    hide Winner, Eligible;
  }

  lemma BuzzView(s: State, conn: ConnId, nonce: nat, arrival: int, w: World)
    ensures var r := OnBuzz(s, conn, nonce, arrival, w);
            && r.gate == s.gate && r.reg.byPlayer == s.reg.byPlayer
            && (r.phase == s.phase || r.phase == Adjudicate)
            && (s.phase != RoundActive ==> r == s)
  {
    hide ResolveWindow, Enqueue;
    var who := Owner(s.reg, conn);
    if who.Some? {
      var s1 := s.(round := s.round.(windowOpen := true, contenders := [Contender(who.value, conn, arrival)]));
      ResolveView(s1, s1.round.key, w);
    }
  }

  /** Grading either leaves the gate alone, or opens a karaoke phase with no votes in it. */
  lemma GradeView(s: State, v: Verdict, w: World)
    requires Inv(s)
    ensures var r := OnGrade(s, v, w);
            && r.reg.byPlayer == s.reg.byPlayer
            && (s.phase != Adjudicate ==> r == s)
            && (s.phase == Adjudicate ==>
                  && r.phase in {Adjudicate, RoundActive, Karaoke}
                  && r.gate.pick == s.gate.pick && r.gate.ready == s.gate.ready
                  && (r.phase != Karaoke ==> r.gate == s.gate)
                  && (r.phase == Karaoke ==> r.gate.votes == {}))
  {
    hide GradeCorrect, GradePartial, DailyInv, KeysFresh, PointsInv;
    if s.phase == Adjudicate {
      var p := s.round.winner.value;
      var s1 := s.(reg := SetPlayer(s.reg, p, s.reg.players[p].(guessed := true)));
      var s2 := s1.(ledger := s1.ledger.(graded := s1.ledger.graded + {(s.round.track.value, p)}));
      CorrectView(s2, p, w.now);
      PartialView(s2, p, w.now);
    }
  }

  lemma CloseRoundView(s: State, now: int)
    ensures var r := CloseRound(s, now);
            r.phase == Karaoke && r.reg == s.reg && r.gate == s.gate.(pool := r.gate.pool, votes := {})
  {
    hide Voters;
  }

  lemma CorrectView(s: State, p: PlayerId, now: int)
    requires p in s.reg.players
    ensures var r := GradeCorrect(s, p, now);
            && r.phase == Karaoke && r.reg.byPlayer == s.reg.byPlayer && r.gate.votes == {}
            && r.gate.pick == s.gate.pick && r.gate.ready == s.gate.ready
  {
    hide CloseRound, RoundPool, Scoring.PoolPoints;
    var (ceiling, floor) := RoundPool(s.round);
    var s1 := AwardRound(s, p, Scoring.PoolPoints(ceiling, floor, s.round.pausedMs));
    CloseRoundView(ConsumeTrack(s1.(gate := s1.gate.(picker := Some(p)))), now);
  }

  lemma PartialView(s: State, p: PlayerId, now: int)
    requires p in s.reg.players
    ensures var r := GradePartial(s, p, now);
            && r.reg.byPlayer == s.reg.byPlayer
            && if s.round.partial.Some?
               then r.phase == Karaoke && r.gate == s.gate.(pool := r.gate.pool, votes := {})
               else r.phase == RoundActive && r.gate == s.gate
  {
    hide CloseRound, PoolAfterPartial;
    var s1 := AwardRound(s, p, Scoring.PARTIAL);
    CloseRoundView(ConsumeTrack(s1.(round := s1.round.(partial := Some(PoolAfterPartial(s.round))))), now);
  }

  lemma VotesView(s: State)
    ensures var r := EvaluateVotes(s);
            && r.reg == s.reg
            && (s.phase == Karaoke && ThresholdMet(s) ==>
                  if s.gate.picker.None? || s.gate.pick.Some? then r.phase == Transition && r.gate == s.gate
                  else r.phase == Karaoke && r.gate == s.gate.(ready := true))
            && (s.phase != Karaoke || !ThresholdMet(s) ==> r == s)
  {
    hide ThresholdMet;
  }

  lemma DailyWithoutView(s: State, p: PlayerId, w: World)
    ensures var r := DailyWithout(s, p, w);
            && r.gate == s.gate && r.reg.byPlayer == s.reg.byPlayer
            && (s.phase != DailyDouble ==> r == s)
            && (s.phase == DailyDouble ==> r.phase in {DailyDouble, RoundActive, BoardUp})
  {
    hide Decline;
    DeclineView(s, w);
  }

  /** The threshold reads only the gate's votes and who is online. */
  lemma ThresholdReads(s: State, t: State)
    requires t.gate.pool == s.gate.pool && t.gate.votes == s.gate.votes && t.gate.pct == s.gate.pct
    requires forall p :: p in s.gate.pool ==> (Online(s.reg, p) <==> Online(t.reg, p))
    ensures ThresholdMet(s) <==> ThresholdMet(t)
  {
    assert ActiveVoters(s) == ActiveVoters(t);
    assert CountedVotes(s) == CountedVotes(t);
  }

  /** What a departure does to the gate before the departing player stops being the picker. */
  lemma LeaveView(s: State, p: PlayerId, w: World)
    ensures var t := LeavePools(s, p);
            var r := DailyWithout(EvaluateVotes(t), p, w);
            && t.reg.byPlayer == s.reg.byPlayer && t.gate == s.gate.(pool := s.gate.pool - {p})
            && r.reg.byPlayer == s.reg.byPlayer
            && (s.phase == Karaoke && ThresholdMet(t) ==>
                  if s.gate.picker.None? || s.gate.pick.Some? then r.phase == Transition && r.gate == t.gate
                  else r.phase == Karaoke && r.gate == t.gate.(ready := true))
            && (s.phase == Karaoke && !ThresholdMet(t) ==> r.phase == Karaoke && r.gate == t.gate)
            && (s.phase != Karaoke ==> r.phase != Karaoke && r.gate == t.gate)
            && (s.phase == Adjudicate || s.phase == RoundActive ==> r.phase == s.phase)
  {
    hide DailyWithout, ThresholdMet, EvaluateVotes;
    VotesView(LeavePools(s, p));
    DailyWithoutView(EvaluateVotes(LeavePools(s, p)), p, w);
  }

  lemma DisconnectView(s: State, conn: ConnId, w: World)
    ensures var (reg, gone) := RemoveConn(s.reg, conn);
            var s1 := s.(reg := reg);
            var r := OnDisconnect(s, conn, w);
            && r.reg.byPlayer == reg.byPlayer
            && (gone.None? ==> r.phase == s.phase && r.gate == s.gate)
            && (gone.Some? ==>
                  var r0 := DailyWithout(EvaluateVotes(LeavePools(s1, gone.value)), gone.value, w);
                  if r0.gate.picker != gone then r == r0
                  else && r.gate == ClearGate(r0).gate
                       && r.phase == if r0.gate.ready && r0.phase == Karaoke then Transition else r0.phase)
  {
    hide DailyWithout, EvaluateVotes, LeavePools, RemoveConn;
    var (reg, gone) := RemoveConn(s.reg, conn);
    if gone.Some? {
      LeaveView(s.(reg := reg), gone.value, w);
    }
  }

  lemma KickView(s: State, p: PlayerId, ban: bool, w: World)
    ensures var r := OnKick(s, p, ban, w);
            && r.reg.byPlayer == s.reg.byPlayer
            && (p !in s.reg.players ==> r == s)
            && (p in s.reg.players ==>
                  var s1 := if ban then s.(reg := SetPlayer(s.reg, p, s.reg.players[p].(banned := true))) else s;
                  var r0 := DailyWithout(EvaluateVotes(LeavePools(s1, p)), p, w);
                  && s1.gate == s.gate && s1.phase == s.phase && s1.reg.byPlayer == s.reg.byPlayer
                  && r.phase == r0.phase
                  && r.gate == if r0.gate.picker == Some(p) then ClearGate(r0).gate else r0.gate)
  {
    hide DailyWithout, EvaluateVotes, LeavePools;
    if p in s.reg.players {
      LeaveView(if ban then s.(reg := SetPlayer(s.reg, p, s.reg.players[p].(banned := true))) else s, p, w);
    }
  }

  lemma CountdownView(s: State, w: World)
    ensures var r := FireCountdown(s, w);
            && (s.phase != Transition ==> r == s)
            && (s.phase == Transition ==>
                  && r.phase in {BoardUp, RoundActive, DailyDouble} && r.gate.pick.None?
                  && (r.gate.ready ==> s.gate.ready) && (r.gate.picker.None? || r.gate.picker == s.gate.picker)
                  && (r.gate.ready ==> r.gate.picker == s.gate.picker))
            && r.reg.byPlayer == s.reg.byPlayer
  {
    hide SelectCell, Unplayed;
    if s.phase == Transition && s.gate.pick.Some? {
      SelectView(TransitionTo(
        s.(round := s.round.(track := None, cell := None), gate := s.gate.(pick := None)), BoardUp),
        s.gate.pick.value, w);
    }
  }

  /** Deferred work: only a countdown moves the gate, and only the last letters open a karaoke phase. */
  lemma FireView(s: State, what: Deferred, w: World)
    ensures var r := OnFire(s, what, w);
            && r.reg.byPlayer == s.reg.byPlayer
            && (s.phase == Karaoke ==> r.phase == Karaoke && r.gate == s.gate)
            && (s.phase != Karaoke && r.phase == Karaoke ==>
                  InPlayOrLocked(s) && r.gate.votes == {} && r.gate.pick == s.gate.pick && r.gate.ready == s.gate.ready
                  && r.gate.picker == s.gate.picker)
            && (r.gate.ready ==> s.gate.ready && (r.gate.picker == s.gate.picker || r.gate == s.gate.(picker := None)))
            && (r.gate.ready && s.gate.picker.Some? && s.gate.picker.value in s.reg.players ==> r.gate.picker.Some?)
  {
    hide ResolveWindow, FireCountdown, FinishDaily, CloseRound;
    if what in s.pending {
      var s1 := s.(pending := s.pending - multiset{what});
      match what
      case BuzzTimer(key) => ResolveView(s1, key, w);
      case Countdown => CountdownView(s1, w);
      case Fade(key) => FinishView(s1);
      case AutoKaraoke(key) => CloseRoundView(ConsumeTrack(s1), w.now);
    }
  }

  predicate InPlayOrLocked(s: State) {
    s.phase == RoundActive || s.phase == Locked
  }

  // ---- The ready flag belongs to a picker ----

  /** The vote half of the gate is only ever remembered on behalf of a picker. */
  predicate PickerBacked(s: State) {
    s.gate.ready ==> s.gate.picker.Some?
  }

  /** Picker and pick are never both on record while KARAOKE still waits. */
  predicate NotBoth(s: State) {
    s.phase == Karaoke ==> !(s.gate.ready && s.gate.pick.Some?)
  }

  /** The New Game that forgets the picker but remembers that the vote was won. */
  predicate StaleReset(s: State, e: Event) {
    e.ResetToLobby? && s.phase == GameOver && s.gate.ready
  }

  lemma BackedMoved(s: State, e: Event, w: World)
    requires Inv(s) && PickerBacked(s)
    requires e.Disconnect? || e.Kick? || e.SetThreshold? || e.Vote?
    ensures PickerBacked(Step(s, e, w))
  {
    hide OnDisconnect, OnKick, DailyWithout, EvaluateVotes, LeavePools, RemoveConn, ThresholdMet, Inv;
    match e
    case Disconnect(conn) =>
      DisconnectView(s, conn, w);
      var (reg, gone) := RemoveConn(s.reg, conn);
      if gone.Some? {
        LeaveView(s.(reg := reg), gone.value, w);
      }
    case Kick(p, ban) =>
      KickView(s, p, ban, w);
      if p in s.reg.players {
        LeaveView(if ban then s.(reg := SetPlayer(s.reg, p, s.reg.players[p].(banned := true))) else s, p, w);
      }
    case SetThreshold(pct) => VotesView(s.(gate := s.gate.(pct := Half(pct))));
    case Vote(conn, _) =>
      if Owner(s.reg, conn).Some? {
        VotesView(s.(gate := s.gate.(votes := s.gate.votes + {Owner(s.reg, conn).value})));
      }
  }

  lemma BackedRounds(s: State, e: Event, w: World)
    requires Inv(s) && PickerBacked(s)
    requires e.Grade? || e.Buzz? || e.Choose? || e.TrackEnded?
    ensures PickerBacked(Step(s, e, w))
  {
    hide EndRoundNow, FinishDaily, OnGrade, OnBuzz, StartPerformance, FadeInv, PoolInv, RoundInv;
    match e
    case Choose(_, _, song) => PerformView(s, song, w);
    case Grade(v) => GradeBacked(s, v, w);
    case Buzz(conn, nonce, arrival) => BuzzView(s, conn, nonce, arrival, w);
    case TrackEnded(_) => EndRoundView(s, w); FinishView(s);
  }

  lemma BackedFires(s: State, what: Deferred, w: World)
    requires Inv(s) && PickerBacked(s)
    ensures PickerBacked(OnFire(s, what, w))
  {
    hide OnFire, FadeInv, PoolInv, RoundInv;
    FireView(s, what, w);
  }

  lemma BackedAdmin(s: State, e: Event, w: World)
    requires Inv(s) && PickerBacked(s)
    requires e.AdminSelect? || e.PlayerSelect? || e.EndRound? || e.EndGame? || e.SkipDouble? || e.Decide?
    ensures PickerBacked(Step(s, e, w))
  {
    hide SelectCell, EndRoundNow, Decline, FinishDaily, FadeInv, PoolInv, RoundInv;
    match e
    case AdminSelect(at) => SelectView(s, at, w);
    case PlayerSelect(_, _, at) => SelectView(s, at, w);
    case EndRound => EndRoundView(s, w);
    case EndGame => FinishView(s);
    case SkipDouble => FinishView(s); DeclineView(s, w);
    case Decide(_, _, _) => DeclineView(s, w);
  }

  lemma BackedRest(s: State, e: Event, w: World)
    requires PickerBacked(s)
    requires e.AdminReveal? || e.Connect? || e.Hello? || e.Heartbeat? || e.AdminAward? || e.StartGame?
             || e.ResetToLobby?
             || e.SetVolume? || e.EndDouble? || e.Rate? || e.LetterLockout? || e.LettersDone? || e.FadeRamp?
             || e.SoloPlay? || e.SoloStop?
    ensures PickerBacked(Step(s, e, w)) <==> !StaleReset(s, e)
  {
    hide Voters, Owner, IsMobile, Resolve, AddConn, SetPlayer, SetGuessed, ClearScores, OnBoard, ValidDeal;
  }

  lemma FireStep(s: State, what: Deferred, w: World)
    ensures Step(s, Fire(what), w) == OnFire(s, what, w)
  {
    hide OnFire;
  }

  /**
   * A remembered vote always has a picker behind it, except through exactly one
   * command: a New Game taken while the flag is up drops the picker and keeps the flag.
   */
  lemma BackedStep(s: State, e: Event, w: World)
    requires Inv(s) && PickerBacked(s)
    ensures PickerBacked(Step(s, e, w)) <==> !StaleReset(s, e)
  {
    hide Step, PickerBacked, Inv;
    if e.Disconnect? || e.Kick? || e.SetThreshold? || e.Vote? {
      BackedMoved(s, e, w);
    } else if e.Grade? || e.Buzz? || e.Choose? || e.TrackEnded? {
      BackedRounds(s, e, w);
    } else if e.Fire? {
      FireStep(s, e.what, w);
      BackedFires(s, e.what, w);
    } else if e.AdminSelect? || e.PlayerSelect? || e.EndRound? || e.EndGame? || e.SkipDouble? || e.Decide? {
      BackedAdmin(s, e, w);
    } else {
      BackedRest(s, e, w);
    }
  }

  lemma PerformView(s: State, song: TrackId, w: World)
    ensures s.dd.offer.Some? ==>
              var r := StartPerformance(s, s.dd.offer.value.contestant, song, w);
              && r.reg.byPlayer == s.reg.byPlayer
              && r.gate.(picker := s.gate.picker) == s.gate
              && (r.gate == s.gate || r.gate.picker.Some?)
              && (r.phase == s.phase || r.phase in {RoundActive, BoardUp})
  {
    hide Decline, Unchosen, PresentMobile;
    DeclineView(s, w);
  }

  lemma GradeBacked(s: State, v: Verdict, w: World)
    requires Inv(s) && PickerBacked(s)
    ensures PickerBacked(OnGrade(s, v, w))
  {
    hide OnGrade, DailyInv, KeysFresh, BuzzInv, PointsInv;
    GradeView(s, v, w);
    if s.phase == Adjudicate {
      assert !s.gate.ready;
    }
  }

  // ---- Both halves at once ----

  /** A reveal issued while both halves are still on record. */
  predicate RevealWithBoth(s: State, e: Event) {
    e.AdminReveal? && s.gate.ready && s.gate.pick.Some?
  }

  lemma NotBothMoved(s: State, e: Event, w: World)
    requires Inv(s) && NotBoth(s)
    requires e.Disconnect? || e.Kick? || e.SetThreshold? || e.Vote?
    ensures NotBoth(Step(s, e, w))
  {
    hide OnDisconnect, OnKick, DailyWithout, EvaluateVotes, LeavePools, RemoveConn, ThresholdMet, Inv;
    match e
    case Disconnect(conn) =>
      DisconnectView(s, conn, w);
      var (reg, gone) := RemoveConn(s.reg, conn);
      if gone.Some? {
        LeaveView(s.(reg := reg), gone.value, w);
      }
    case Kick(p, ban) =>
      KickView(s, p, ban, w);
      if p in s.reg.players {
        LeaveView(if ban then s.(reg := SetPlayer(s.reg, p, s.reg.players[p].(banned := true))) else s, p, w);
      }
    case SetThreshold(pct) => VotesView(s.(gate := s.gate.(pct := Half(pct))));
    case Vote(conn, _) =>
      if Owner(s.reg, conn).Some? {
        VotesView(s.(gate := s.gate.(votes := s.gate.votes + {Owner(s.reg, conn).value})));
      }
  }

  lemma NotBothRounds(s: State, e: Event, w: World)
    requires Inv(s) && NotBoth(s)
    requires e.Grade? || e.Buzz? || e.Choose? || e.TrackEnded?
    ensures NotBoth(Step(s, e, w))
  {
    hide Step, NotBoth, Inv;
    if e.Grade? || e.Buzz? {
      NotBothPlays(s, e, w);
    } else {
      NotBothSettles(s, e, w);
    }
  }

  lemma NotBothSettles(s: State, e: Event, w: World)
    requires Inv(s) && NotBoth(s) && (e.Choose? || e.TrackEnded?)
    ensures NotBoth(Step(s, e, w))
  {
    hide EndRoundNow, FinishDaily, StartPerformance, DailyInv, KeysFresh, BuzzInv, PointsInv;
    match e
    case Choose(_, _, song) => PerformView(s, song, w);
    case TrackEnded(_) => EndRoundView(s, w); FinishView(s);
  }

  lemma NotBothPlays(s: State, e: Event, w: World)
    requires Inv(s) && NotBoth(s) && (e.Grade? || e.Buzz?)
    ensures NotBoth(Step(s, e, w))
  {
    hide OnGrade, OnBuzz, DailyInv, KeysFresh, BuzzInv, PointsInv;
    match e
    case Grade(v) => GradeView(s, v, w);
    case Buzz(conn, nonce, arrival) => BuzzView(s, conn, nonce, arrival, w);
  }

  lemma NotBothFires(s: State, what: Deferred, w: World)
    requires Inv(s) && NotBoth(s)
    ensures NotBoth(OnFire(s, what, w))
  {
    hide OnFire, DailyInv, KeysFresh, PointsInv;
    FireView(s, what, w);
    NeverLocked(s);
  }

  lemma NotBothAdmin(s: State, e: Event, w: World)
    requires Inv(s) && NotBoth(s)
    requires e.AdminSelect? || e.PlayerSelect? || e.EndRound? || e.EndGame? || e.SkipDouble? || e.Decide?
    ensures NotBoth(Step(s, e, w))
  {
    hide SelectCell, EndRoundNow, Decline, FinishDaily, Inv, PickAccepted;
    if e.AdminSelect? || e.PlayerSelect? {
      SelectView(s, e.at, w);
    } else {
      NotBothCloses(s, e, w);
    }
  }

  lemma NotBothCloses(s: State, e: Event, w: World)
    requires Inv(s) && NotBoth(s)
    requires e.EndRound? || e.EndGame? || e.SkipDouble? || e.Decide?
    ensures NotBoth(Step(s, e, w))
  {
    hide EndRoundNow, Decline, FinishDaily, Inv;
    match e
    case EndRound => EndRoundView(s, w);
    case EndGame => FinishView(s);
    case SkipDouble => FinishView(s); DeclineView(s, w);
    case Decide(_, _, _) => DeclineView(s, w);
  }

  /** Both halves never wait together in KARAOKE, unless admin.reveal pulls them back in from outside. */
  lemma NotBothStep(s: State, e: Event, w: World)
    requires Inv(s) && NotBoth(s)
    ensures NotBoth(Step(s, e, w)) <==> !RevealWithBoth(s, e)
  {
    hide Step, NotBoth;
    if e.Disconnect? || e.Kick? || e.SetThreshold? || e.Vote? {
      NotBothMoved(s, e, w);
    } else if e.Grade? || e.Buzz? || e.Choose? || e.TrackEnded? {
      NotBothRounds(s, e, w);
    } else if e.Fire? {
      FireStep(s, e.what, w);
      NotBothFires(s, e.what, w);
    } else if e.AdminSelect? || e.PlayerSelect? || e.EndRound? || e.EndGame? || e.SkipDouble? || e.Decide? {
      NotBothAdmin(s, e, w);
    } else {
      NotBothRest(s, e, w);
    }
  }

  lemma NotBothRest(s: State, e: Event, w: World)
    requires NotBoth(s)
    requires e.AdminReveal? || e.Connect? || e.Hello? || e.Heartbeat? || e.AdminAward? || e.StartGame?
             || e.ResetToLobby?
             || e.SetVolume? || e.EndDouble? || e.Rate? || e.LetterLockout? || e.LettersDone? || e.FadeRamp?
             || e.SoloPlay? || e.SoloStop?
    ensures NotBoth(Step(s, e, w)) <==> !RevealWithBoth(s, e)
  {
    hide Voters, Owner, IsMobile, Resolve, AddConn, SetGuessed, ClearScores, OnBoard, ValidDeal;
  }

  lemma NeverLocked(s: State)
    requires RoundInv(s)
    ensures s.phase != Locked
  {
  }

  // ---- Wakeups ----

  /** No lost wakeup: once the votes are there, the vote half has fired. */
  predicate Wakeful(s: State) {
    s.phase == Karaoke && ThresholdMet(s) ==> s.gate.ready
  }

  /** An admin.select of a dead cell wipes the gate and then refuses the selection. */
  predicate RefusedSelect(s: State, e: Event) {
    && e.AdminSelect? && s.phase == Karaoke
    && Unplayed(s.board, s.played, e.at) == []
    && (s.gate.picker.Some? || s.gate.pick.Some?)
    && ThresholdMet(s)
  }

  /** The picker is kicked before picking, with the others' votes sufficient. */
  predicate KickedPicker(s: State, e: Event) {
    && e.Kick? && e.player in s.reg.players && s.phase == Karaoke
    && s.gate.picker == Some(e.player) && s.gate.pick.None?
    && ThresholdMet(LeavePools(s, e.player))
  }

  lemma NeedPositive(active: nat, pct: nat)
    requires active > 0
    ensures 1 <= NeedVotes(active, pct) <= active
  {
    assert active * pct / 100 >= 0;
  }

  /** Without votes the threshold is not met, whoever is there. */
  lemma NoVotesNotMet(s: State)
    requires s.gate.votes == {}
    ensures !ThresholdMet(s)
  {
    assert CountedVotes(s) == {};
    if |ActiveVoters(s)| > 0 {
      NeedPositive(|ActiveVoters(s)|, s.gate.pct);
    }
  }

  lemma WakefulDisconnect(s: State, conn: ConnId, w: World)
    requires Inv(s) && Wakeful(s)
    ensures Wakeful(OnDisconnect(s, conn, w))
  {
    hide ThresholdMet, OnDisconnect, DailyWithout, EvaluateVotes, LeavePools, Inv, RemoveConn, Connected;
    var (reg, gone) := RemoveConn(s.reg, conn);
    var r := OnDisconnect(s, conn, w);
    DisconnectView(s, conn, w);
    if gone.None? {
      OnlineWithout(s.reg, conn);
      ThresholdReads(s, r);
    } else {
      var s1 := s.(reg := reg);
      var t := LeavePools(s1, gone.value);
      var r0 := DailyWithout(EvaluateVotes(t), gone.value, w);
      LeaveView(s1, gone.value, w);
      ThresholdReads(t, r0);
      ThresholdReads(r0, r);
    }
  }

  lemma OnlineWithout(r: Reg, conn: ConnId)
    ensures var (s, gone) := RemoveConn(r, conn);
            gone.None? ==> forall p :: Online(r, p) <==> Online(s, p)
  {
  }

  lemma WakefulKick(s: State, e: Event, w: World)
    requires Inv(s) && Wakeful(s) && e.Kick?
    ensures Wakeful(Step(s, e, w)) <==> !KickedPicker(s, e)
  {
    hide ThresholdMet, OnKick, DailyWithout, EvaluateVotes, LeavePools, Inv, Connected;
    var p, r := e.player, OnKick(s, e.player, e.ban, w);
    KickView(s, p, e.ban, w);
    if p in s.reg.players {
      var s1 := if e.ban then s.(reg := SetPlayer(s.reg, p, s.reg.players[p].(banned := true))) else s;
      var t := LeavePools(s1, p);
      var r0 := DailyWithout(EvaluateVotes(t), p, w);
      LeaveView(s1, p, w);
      LeaveView(s, p, w);
      ThresholdReads(LeavePools(s, p), t);
      ThresholdReads(t, r0);
      ThresholdReads(r0, r);
    }
  }

  lemma WakefulVotes(s: State)
    ensures Wakeful(EvaluateVotes(s))
  {
    hide ThresholdMet, EvaluateVotes;
    VotesView(s);
    if EvaluateVotes(s).phase == Karaoke {
      ThresholdReads(s, EvaluateVotes(s));
    }
  }

  lemma WakefulHello(s: State, conn: ConnId, role: Role, fp: Option<nat>)
    requires Inv(s) && Wakeful(s)
    ensures Wakeful(OnHello(s, conn, role, fp))
  {
    hide ThresholdMet, RoundInv, PayInv, FadeInv;
    ThresholdReads(s, OnHello(s, conn, role, fp));
  }

  /** Commands after which the gate's votes and voters are as before, or KARAOKE is over or freshly opened. */
  lemma WakefulSame(s: State, t: State)
    requires Wakeful(s)
    requires t.phase == Karaoke ==>
               t.gate.votes == {} || (s.phase == Karaoke && t.reg.byPlayer == s.reg.byPlayer
                                      && t.gate.ready == s.gate.ready && t.gate.pool == s.gate.pool
                                      && t.gate.votes == s.gate.votes && t.gate.pct == s.gate.pct)
    ensures Wakeful(t)
  {
    hide ThresholdMet;
    if t.phase == Karaoke {
      if t.gate.votes == {} {
        NoVotesNotMet(t);
      } else {
        ThresholdReads(s, t);
      }
    }
  }

  lemma WakefulSelect(s: State, e: Event, w: World)
    requires Wakeful(s) && e.AdminSelect?
    ensures Wakeful(Step(s, e, w)) <==> !RefusedSelect(s, e)
  {
    hide ThresholdMet, SelectCell, Unplayed;
    var r := SelectCell(s, e.at, w);
    SelectView(s, e.at, w);
    if r.phase == Karaoke {
      ThresholdReads(s, r);
    }
  }

  lemma WakefulPick(s: State, conn: ConnId, nonce: nat, c: Coord, w: World)
    requires Wakeful(s)
    ensures Wakeful(OnPlayerSelect(s, conn, nonce, c, w))
  {
    hide ThresholdMet, SelectCell, Unplayed;
    SelectView(s, c, w);
    WakefulSame(s, OnPlayerSelect(s, conn, nonce, c, w));
  }

  lemma WakefulRounds(s: State, e: Event, w: World)
    requires Inv(s) && Wakeful(s)
    requires e.Grade? || e.Buzz? || e.Fire? || e.Choose?
    ensures Wakeful(Step(s, e, w))
  {
    hide OnGrade, OnBuzz, OnFire, StartPerformance, ThresholdMet, RoundInv, DailyInv;
    match e {
      case Choose(_, _, song) => PerformView(s, song, w);
      case Grade(v) => GradeView(s, v, w);
      case Buzz(conn, nonce, arrival) => BuzzView(s, conn, nonce, arrival, w);
      case Fire(what) => FireView(s, what, w);
    }
    WakefulSame(s, Step(s, e, w));
  }

  lemma WakefulEnds(s: State, e: Event, w: World)
    requires Wakeful(s)
    requires e.EndRound? || e.EndGame? || e.SkipDouble? || e.Decide? || e.AdminReveal? || e.ResetToLobby?
             || e.StartGame?
    ensures Wakeful(Step(s, e, w))
  {
    hide EndRoundNow, Decline, FinishDaily, ThresholdMet, Voters, ValidDeal, OnBoard, ClearScores;
    EndRoundView(s, w);
    DeclineView(s, w);
    FinishView(s);
    WakefulSame(s, Step(s, e, w));
  }

  lemma WakefulQuiet(s: State, e: Event, w: World)
    requires Wakeful(s)
    requires e.Connect? || e.SetVolume? || e.EndDouble? || e.Rate? || e.LetterLockout? || e.LettersDone?
             || e.FadeRamp? || e.SoloPlay? || e.SoloStop? || e.Heartbeat? || e.AdminAward?
    ensures Wakeful(Step(s, e, w))
  {
    hide ThresholdMet, IsMobile;
    WakefulSame(s, Step(s, e, w));
  }

  lemma WakefulEnded(s: State, queueOver: bool, w: World)
    requires Wakeful(s)
    ensures Wakeful(OnTrackEnded(s, queueOver, w))
  {
    hide ThresholdMet, EndRoundNow, FinishDaily;
    EndRoundView(s, w);
    FinishView(s);
    if s.solo {
      WakefulSame(s, OnTrackEnded(s, queueOver, w));
    }
  }

  /**
   * Wakeups are lost by exactly two commands: an admin.select that is refused
   * after it has wiped the gate, and a kick of the picker. Every vote,
   * disconnect, hello, pick, threshold change or track end leaves none behind.
   */
  lemma WakefulStep(s: State, e: Event, w: World)
    requires Inv(s) && Wakeful(s)
    ensures Wakeful(Step(s, e, w)) <==> !(RefusedSelect(s, e) || KickedPicker(s, e))
  {
    hide ThresholdMet, Inv, LeavePools, Unplayed, SelectCell, EvaluateVotes, OnTrackEnded, OnDisconnect, OnKick,
         OnHello, OnPlayerSelect;
    match e
    case Disconnect(conn) => WakefulDisconnect(s, conn, w);
    case Kick(_, _) => WakefulKick(s, e, w);
    case Hello(conn, role, fp) => WakefulHello(s, conn, role, fp);
    case SetThreshold(pct) => WakefulVotes(s.(gate := s.gate.(pct := Half(pct))));
    case Vote(conn, _) =>
      if Owner(s.reg, conn).Some? {
        WakefulVotes(s.(gate := s.gate.(votes := s.gate.votes + {Owner(s.reg, conn).value})));
      }
    case AdminSelect(_) => WakefulSelect(s, e, w);
    case PlayerSelect(conn, nonce, at) => WakefulPick(s, conn, nonce, at, w);
    case TrackEnded(queueOver) => WakefulEnded(s, queueOver, w);
    case Grade(_) => WakefulRounds(s, e, w);
    case Buzz(_, _, _) => WakefulRounds(s, e, w);
    case Fire(_) => WakefulRounds(s, e, w);
    case Choose(_, _, _) => WakefulRounds(s, e, w);
    case EndRound => WakefulEnds(s, e, w);
    case EndGame => WakefulEnds(s, e, w);
    case SkipDouble => WakefulEnds(s, e, w);
    case Decide(_, _, _) => WakefulEnds(s, e, w);
    case AdminReveal => WakefulEnds(s, e, w);
    case ResetToLobby => WakefulEnds(s, e, w);
    case StartGame => WakefulEnds(s, e, w);
    case _ => WakefulQuiet(s, e, w);
  }

  /** A run that never takes one of the commands that break the gate. */
  ghost predicate GateSafe(s: State, run: Run)
    decreases |run|
  {
    run != [] ==>
      var (e, w) := run[0];
      && !StaleReset(s, e) && !RevealWithBoth(s, e) && !RefusedSelect(s, e) && !KickedPicker(s, e)
      && GateSafe(Step(s, e, w), run[1..])
  }

  /** From a fresh engine, over any such run: no vote without a picker, never both halves waiting, no wakeup lost. */
  lemma GateHolds(s: State, run: Run)
    requires Init(s) && GateSafe(s, run)
    ensures var t := After(s, run); PickerBacked(t) && NotBoth(t) && Wakeful(t)
  {
    hide After, GateSafe;
    InitInv(s);
    GateRuns(s, run);
  }

  lemma {:induction false} GateRuns(s: State, run: Run)
    requires Inv(s) && PickerBacked(s) && NotBoth(s) && Wakeful(s) && GateSafe(s, run)
    ensures var t := After(s, run); PickerBacked(t) && NotBoth(t) && Wakeful(t)
    decreases |run|
  {
    hide Step, Inv, PickerBacked, NotBoth, Wakeful, StaleReset, RevealWithBoth, RefusedSelect, KickedPicker;
    if run != [] {
      var (e, w) := run[0];
      StepInv(s, e, w);
      BackedStep(s, e, w);
      NotBothStep(s, e, w);
      WakefulStep(s, e, w);
      GateRuns(Step(s, e, w), run[1..]);
    }
  }

  lemma StepInv(s: State, e: Event, w: World)
    requires Inv(s)
    ensures Inv(Step(s, e, w))
  {
    hide Step, RoundInv, DailyInv;
    RoundStep(s, e, w);
    DailyStep(s, e, w);
  }
}
