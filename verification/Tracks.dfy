/**
 * The board as a termination measure: every round that leaves play uses up
 * exactly one track, so a game has only so many rounds, and nobody is
 * adjudicated twice on one track.
 */
module Tracks {
  import opened Common
  import opened Registry
  import opened BuzzWindow
  import opened EngineState
  import opened RoundSafety
  import opened DailySafety
  import opened Frames
  import opened Books
  import opened Songs
  import Scoring

  /** The tracks that TracksLeft counts, over the whole board. */
  function Live(s: State): set<TrackId> {
    (set t | t in s.board.playable && OnBoard(s.board, t)) - s.played
  }

  /** Rounds that can still be started: the tracks left, less the one in play. */
  function Startable(s: State): int {
    |Live(s)| - (if InPlay(s) then 1 else 0)
  }

  /** The track in play is a live one, and no other loaded track is. */
  predicate TrackInv(s: State) {
    if InPlay(s) then s.round.track.Some? && s.round.track.value in Live(s)
    else s.round.track.Some? ==> s.round.track.value !in Live(s)
  }

  /** Whoever was graded on a track still to be consumed is barred from it; the winner at the bar is new to it. */
  ghost predicate GradedInv(s: State) {
    && (forall t, p :: (t, p) in s.ledger.graded ==> t in s.played || (s.round.track == Some(t) && Barred(s, p)))
    && (s.phase == Adjudicate && s.round.track.Some? && s.round.winner.Some? ==>
          (s.round.track.value, s.round.winner.value) !in s.ledger.graded)
  }

  predicate Barred(s: State, p: PlayerId) {
    InPlay(s) && p in s.reg.players && s.reg.players[p].guessed
  }

  // ---- The ways a command can treat the tracks ----

  predicate SameDeck(s: State, t: State) {
    t.board == s.board && t.played == s.played && t.ledger.rounds == s.ledger.rounds
  }

  ghost predicate BarsKept(s: State, t: State) {
    forall p :: s.round.track.Some? && (s.round.track.value, p) in s.ledger.graded && Barred(s, p) ==> Barred(t, p)
  }

  /** Nothing happens to the round in play, if there is one. */
  ghost predicate Calm(s: State, t: State) {
    && SameDeck(s, t) && t.ledger.graded == s.ledger.graded
    && InPlay(t) == InPlay(s)
    && (InPlay(s) ==> t.phase == s.phase && t.round.track == s.round.track && t.round.winner == s.round.winner
                      && BarsKept(s, t))
    && (!InPlay(s) ==> t.round.track == None || t.round.track == s.round.track)
  }

  predicate Starts(s: State, t: State) {
    && t.board == s.board && t.played == s.played && t.ledger.rounds == s.ledger.rounds + 1
    && t.ledger.graded == s.ledger.graded
    && !InPlay(s) && t.phase == RoundActive
    && t.round.track.Some? && t.round.track.value in Live(s)
  }

  /** The loaded track is marked played and no round is in play. */
  ghost predicate Ends(s: State, t: State) {
    && t.board == s.board && t.ledger.rounds == s.ledger.rounds
    && t.played == s.played + (if s.round.track.Some? then {s.round.track.value} else {})
    && !InPlay(t) && (t.round.track == None || t.round.track == s.round.track)
    && (forall x :: x in t.ledger.graded ==> x in s.ledger.graded || s.round.track == Some(x.0))
  }

  /** A Daily Double song is loaded. */
  predicate Sings(s: State, t: State) {
    && SameDeck(s, t) && t.ledger.graded == s.ledger.graded && !InPlay(s) && !InPlay(t)
    && t.round.track.Some? && !OnBoard(s.board, t.round.track.value)
  }

  /** A buzz wins the lock. */
  predicate Wins(s: State, t: State) {
    && SameDeck(s, t) && t.ledger.graded == s.ledger.graded && t.reg == s.reg
    && s.phase == RoundActive && t.phase == Adjudicate && t.round.track == s.round.track
    && t.round.winner.Some? && t.round.winner.value in Eligible(s.reg)
  }

  /** The winner is graded and the round goes on. */
  ghost predicate Resumes(s: State, t: State) {
    && SameDeck(s, t)
    && s.phase == Adjudicate && t.phase == RoundActive && t.round.track == s.round.track
    && s.round.track.Some? && s.round.winner.Some?
    && t.ledger.graded == s.ledger.graded + {(s.round.track.value, s.round.winner.value)}
    && Barred(t, s.round.winner.value) && BarsKept(s, t)
  }

  ghost predicate Moves(s: State, t: State) {
    Calm(s, t) || Starts(s, t) || Ends(s, t) || Sings(s, t) || Wins(s, t) || Resumes(s, t)
  }

  lemma MovesLive(s: State, t: State)
    requires TrackInv(s) && Moves(s, t)
    ensures Live(t) == if InPlay(s) && !InPlay(t) then Live(s) - {s.round.track.value} else Live(s)
    ensures InPlay(s) && !InPlay(t) ==> t.played == s.played + {s.round.track.value}
  {
    hide BarsKept, OnBoard;
  }

  lemma MovesTrack(s: State, t: State)
    requires TrackInv(s) && Moves(s, t)
    ensures TrackInv(t)
    ensures t.ledger.rounds + Startable(t) == s.ledger.rounds + Startable(s)
  {
    hide BarsKept, Eligible, Live;
    MovesLive(s, t);
    SingsDead(s, t);
  }

  lemma SingsDead(s: State, t: State)
    ensures Sings(s, t) ==> t.round.track.value !in Live(t)
  {
  }

  /** Only a recorded grade adds to what is graded, and a won buzz comes from somebody eligible. */
  lemma MovesGraded(s: State, t: State)
    requires TrackInv(s) && Moves(s, t) && GradedInv(s)
    ensures GradedInv(t)
  {
    hide Connected, OnBoard;
  }

  /** Each of these ways keeps both invariants, and trades a startable round for a started one. */
  lemma MovesKeep(s: State, t: State)
    requires TrackInv(s) && Moves(s, t)
    ensures TrackInv(t)
    ensures GradedInv(s) ==> GradedInv(t)
    ensures t.ledger.rounds + Startable(t) == s.ledger.rounds + Startable(s)
    ensures InPlay(s) && !InPlay(t) ==> |Live(t)| == |Live(s)| - 1 && t.played == s.played + {s.round.track.value}
    ensures !(InPlay(s) && !InPlay(t)) ==> Live(t) == Live(s)
  {
    hide Moves, GradedInv, Live;
    MovesLive(s, t);
    MovesTrack(s, t);
    if GradedInv(s) {
      MovesGraded(s, t);
    }
  }

  lemma CalmThen(s: State, t: State, u: State)
    requires Calm(s, t)
    ensures Calm(t, u) ==> Calm(s, u)
    ensures Starts(t, u) ==> Starts(s, u)
  {
  }

  // ---- Handler by handler ----

  /** What a selection, an offer or a declined offer can do. */
  ghost predicate Deals(s: State, t: State) {
    Calm(s, t) || Starts(s, t)
  }

  lemma StartTrackDeals(s: State, c: Coord, t: TrackId, now: int)
    requires !InPlay(s) && t in Unplayed(s.board, s.played, c)
    ensures Starts(s, StartTrack(s, c, t, now))
  {
    assert OnBoard(s.board, t);
  }

  lemma StartCellDeals(s: State, c: Coord, w: World)
    requires !InPlay(s)
    ensures Deals(s, StartCellNormally(s, c, w))
  {
    hide Unplayed, StartTrack, Live;
    if Unplayed(s.board, s.played, c) != [] {
      StartTrackDeals(s, c, Pick(Unplayed(s.board, s.played, c), w.track), w.now);
    }
  }

  lemma BeginOfferDeals(s: State, c: Coord, w: World)
    requires !InPlay(s)
    ensures Deals(s, BeginOffer(s, c, w))
  {
    hide StartCellNormally, Filter, PresentMobile, Present, Live;
    var u := Unflag(s, c);
    StartCellDeals(u, c, w);
    assert Calm(s, u);
    CalmThen(s, u, StartCellNormally(u, c, w));
  }

  lemma SelectDeals(s: State, c: Coord, w: World)
    ensures Deals(s, SelectCell(s, c, w))
  {
    hide BeginOffer, StartTrack, Unplayed, Fires, Visits, Live;
    if !Busy(s) && Unplayed(s.board, s.played, c) != [] {
      var s2 := Visit(DropPick(s), c);
      assert Calm(s, s2);
      BeginOfferDeals(s2, c, w);
      StartTrackDeals(s2, c, Pick(Unplayed(s2.board, s2.played, c), w.track), w.now);
      CalmThen(s, s2, SelectCell(s, c, w));
    }
  }

  lemma DeclineDeals(s: State, w: World)
    ensures Deals(s, Decline(s, w))
  {
    hide StartCellNormally, Rearm, Live;
    if s.phase == DailyDouble && s.dd.offer.Some? {
      var o := s.dd.offer.value;
      var s1 := Unflag(s, o.cell);
      var s2 := s1.(dd := s1.dd.(bucket := s1.dd.bucket + o.candidates, offer := None));
      RearmFrame(s2, o.cell, w.cell);
      var s3 := Rearm(s2, o.cell, w.cell);
      StartCellDeals(s3, o.cell, w);
      assert Calm(s, s3);
      CalmThen(s, s3, StartCellNormally(s3, o.cell, w));
    }
  }

  lemma FinishCalm(s: State)
    requires s.phase == DailyDouble
    ensures Calm(s, FinishDaily(s))
  {
    hide Scoring.Payout;
  }

  lemma SkipDeals(s: State, w: World)
    ensures Deals(s, SkipDaily(s, w))
  {
    hide Decline, FinishDaily, Live;
    DeclineDeals(s, w);
    if s.phase == DailyDouble {
      FinishCalm(s);
    }
  }

  lemma EndRoundMoves(s: State, w: World)
    ensures Moves(s, EndRoundNow(s, w))
    ensures s.phase != DailyDouble ==> Ends(s, EndRoundNow(s, w))
  {
    hide SkipDaily, Live;
    SkipDeals(s, w);
  }

  lemma CloseRoundEnds(s: State, now: int)
    ensures Ends(s, CloseRound(ConsumeTrack(s), now))
  {
    hide Voters;
  }

  lemma ResolveMoves(s: State, key: Key, w: World)
    ensures Calm(s, ResolveWindow(s, key, w)) || Wins(s, ResolveWindow(s, key, w))
  {
    hide Winner, Eligible;
    WinnerRegistered(s, w);
  }

  lemma BuzzMoves(s: State, conn: ConnId, nonce: nat, arrival: int, w: World)
    ensures Calm(s, OnBuzz(s, conn, nonce, arrival, w)) || Wins(s, OnBuzz(s, conn, nonce, arrival, w))
  {
    hide ResolveWindow, Enqueue, Eligible;
    var who := Owner(s.reg, conn);
    if who.Some? {
      var s1 := s.(round := s.round.(windowOpen := true, contenders := [Contender(who.value, conn, arrival)]));
      ResolveMoves(s1, s1.round.key, w);
    }
  }

  /** Recording the guess, before the verdict is acted on. */
  lemma GradeMoves(s: State, v: Verdict, w: World)
    requires RoundInv(s)
    ensures Moves(s, OnGrade(s, v, w))
  {
    hide GradeCorrect, GradePartial, GradeIncorrect, Live, KeysFresh, GateIdle, PointsInv;
    if s.phase == Adjudicate {
      var p := s.round.winner.value;
      var s1 := s.(reg := SetPlayer(s.reg, p, s.reg.players[p].(guessed := true)));
      if v != Unknown {
        var s2 := s1.(ledger := s1.ledger.(graded := s1.ledger.graded + {(s.round.track.value, p)}));
        CorrectEnds(s2, p, w.now);
        PartialMoves(s2, p, w.now);
        IncorrectMoves(s2, w.now);
      }
    }
  }

  /** The round goes on, with everybody's guesses as they were. */
  predicate Resumed(s: State, t: State) {
    && SameDeck(s, t) && t.ledger.graded == s.ledger.graded && t.phase == RoundActive
    && t.round.track == s.round.track
    && forall p :: p in s.reg.players ==> p in t.reg.players && t.reg.players[p].guessed == s.reg.players[p].guessed
  }

  lemma CorrectEnds(s: State, p: PlayerId, now: int)
    requires p in s.reg.players
    ensures Ends(s, GradeCorrect(s, p, now))
  {
    hide RoundPool, Voters;
  }

  lemma PartialMoves(s: State, p: PlayerId, now: int)
    requires p in s.reg.players
    ensures Ends(s, GradePartial(s, p, now)) || Resumed(s, GradePartial(s, p, now))
  {
    hide PoolAfterPartial, CloseRound;
    var s1 := AwardRound(s, p, Scoring.PARTIAL);
    var s2 := s1.(round := s1.round.(partial := Some(PoolAfterPartial(s.round))));
    CloseRoundEnds(s2, now);
  }

  lemma IncorrectMoves(s: State, now: int)
    ensures Resumed(s, GradeIncorrect(s, now))
  {
  }

  lemma LeaveCalm(s: State, p: PlayerId)
    ensures Calm(s, EvaluateVotes(LeavePools(s, p)))
  {
    hide EvaluateVotes;
    VotesUntouched(LeavePools(s, p));
  }

  lemma WithoutDeals(s: State, p: PlayerId, w: World)
    ensures Deals(s, DailyWithout(s, p, w))
  {
    hide Decline, Live;
    DeclineDeals(s, w);
  }

  lemma LeaveDeals(s: State, p: PlayerId, w: World)
    ensures Deals(s, DailyWithout(EvaluateVotes(LeavePools(s, p)), p, w))
  {
    hide DailyWithout, EvaluateVotes, LeavePools, Calm, Starts;
    var t := EvaluateVotes(LeavePools(s, p));
    LeaveCalm(s, p);
    WithoutDeals(t, p, w);
    CalmThen(s, t, DailyWithout(t, p, w));
  }

  /** Clearing the gate and starting the countdown leave the tracks alone. */
  lemma DealsGate(s: State, t: State)
    requires Deals(s, t)
    ensures Deals(s, ClearGate(t)) && (t.phase == Karaoke ==> Deals(s, BeginTransition(ClearGate(t))))
  {
    hide Live;
  }

  lemma DepartDeals(s: State, e: Event, w: World)
    requires e.Disconnect? || e.Kick?
    ensures Deals(s, Step(s, e, w))
  {
    hide DailyWithout, EvaluateVotes, LeavePools, RemoveConn, Deals;
    match e
    case Disconnect(conn) =>
      var (reg, gone) := RemoveConn(s.reg, conn);
      var s1 := s.(reg := reg);
      RemoveConnOnline(s.reg, conn);
      CalmDeals(s, s1);
      if gone.Some? {
        LeaveDeals(s1, gone.value, w);
        var r := DailyWithout(EvaluateVotes(LeavePools(s1, gone.value)), gone.value, w);
        CalmDealsThen(s, s1, r);
        DealsGate(s, r);
      }
    case Kick(p, ban) =>
      if p in s.reg.players {
        var s1 := if ban then s.(reg := SetPlayer(s.reg, p, s.reg.players[p].(banned := true))) else s;
        CalmDeals(s, s1);
        LeaveDeals(s1, p, w);
        var r := DailyWithout(EvaluateVotes(LeavePools(s1, p)), p, w);
        CalmDealsThen(s, s1, r);
        DealsGate(s, r);
      } else {
        CalmDeals(s, s);
      }
  }

  /** Changing only the registry, without clearing anybody's guess, is calm. */
  lemma CalmDeals(s: State, t: State)
    requires t == s.(reg := t.reg)
    requires forall p :: p in s.reg.players ==>
               p in t.reg.players && t.reg.players[p].guessed == s.reg.players[p].guessed
    ensures Calm(s, t) && Deals(s, t)
  {
  }

  lemma CalmDealsThen(s: State, t: State, u: State)
    requires Calm(s, t) && Deals(t, u)
    ensures Deals(s, u)
  {
    CalmThen(s, t, u);
  }

  lemma CountdownDeals(s: State, w: World)
    ensures Deals(s, FireCountdown(s, w))
  {
    hide SelectCell, Unplayed, Live;
    if s.phase == Transition {
      var s1 := TransitionTo(
        s.(round := s.round.(track := None, cell := None), gate := s.gate.(pick := None)), BoardUp);
      assert Calm(s, s1);
      if s.gate.pick.Some? {
        SelectDeals(s1, s.gate.pick.value, w);
        CalmThen(s, s1, SelectCell(s1, s.gate.pick.value, w));
      }
    }
  }

  lemma FireMoves(s: State, what: Deferred, w: World)
    ensures Moves(s, OnFire(s, what, w))
  {
    hide ResolveWindow, FireCountdown, FinishDaily, CloseRound, Live, Eligible;
    if what in s.pending {
      var s1 := s.(pending := s.pending - multiset{what});
      match what
      case BuzzTimer(key) => ResolveMoves(s1, key, w);
      case Countdown =>
        CountdownDeals(s1, w);
        assert Calm(s, s1);
        CalmThen(s, s1, FireCountdown(s1, w));
      case Fade(key) =>
        if Performing(s1) {
          FinishCalm(s1);
        }
      case AutoKaraoke(key) => CloseRoundEnds(s1, w.now);
    }
  }

  /** A song on offer came out of the curated bucket, which shares nothing with the board. */
  lemma ChooseMoves(s: State, conn: ConnId, nonce: nat, song: TrackId, w: World)
    requires Curated(s) && WellFormed(s.board)
    ensures Moves(s, OnChoose(s, conn, nonce, song, w))
  {
    hide Decline, FromContestant, Live, Unchosen, PresentMobile, OnBoard;
    ContestantDecides(s, conn, nonce);
    DeclineDeals(s, w);
  }

  lemma TrackEndedMoves(s: State, queueOver: bool, w: World)
    ensures Moves(s, OnTrackEnded(s, queueOver, w))
  {
    hide EndRoundNow, FinishDaily, Live;
    EndRoundMoves(s, w);
    if s.phase == DailyDouble {
      FinishCalm(s);
    }
  }

  // ---- Every command ----

  /** End Game while a round is in play. */
  predicate Abandons(s: State, e: Event) {
    e.EndGame? && InPlay(s)
  }

  /** A Hello without a fingerprint, from a connection whose player was graded on the track in play. */
  predicate Forgets(s: State, e: Event) {
    && e.Hello? && e.fp.None? && InPlay(s)
    && s.round.track.Some? && (s.round.track.value, Anonymous(e.conn)) in s.ledger.graded
  }

  lemma QuietMoves(s: State, e: Event, w: World)
    requires e.Connect? || e.StartGame? || e.SetVolume? || e.EndDouble? || e.Rate?
             || e.FadeRamp? || e.SoloPlay? || e.SoloStop?
    ensures Calm(s, Step(s, e, w))
  {
    hide Calm, BarsKept;
    QuietStep(s, e, w);
    Undisturbed(s, Step(s, e, w));
  }

  /** Rounds, their record and the attendees are as before. */
  predicate Untouched(s: State, t: State) {
    && SameDeck(s, t) && t.ledger == s.ledger && t.round == s.round && t.reg.players == s.reg.players
    && (t.phase == s.phase || (!InPlay(s) && !InPlay(t)))
  }

  lemma Undisturbed(s: State, t: State)
    requires Untouched(s, t)
    ensures Calm(s, t)
  {
  }

  lemma QuietStep(s: State, e: Event, w: World)
    requires e.Connect? || e.StartGame? || e.SetVolume? || e.EndDouble? || e.Rate?
             || e.FadeRamp? || e.SoloPlay? || e.SoloStop?
    ensures Untouched(s, Step(s, e, w))
  {
    hide OnStartGame, FadeOut, OnRate;
    if e.StartGame? {
      DealStep(s, w.deal);
    } else if e.EndDouble? || e.Rate? {
      DoubleStep(s, e, w);
    }
  }

  lemma DealStep(s: State, deal: set<Coord>)
    ensures Untouched(s, OnStartGame(s, deal))
  {
    hide ValidDeal;
  }

  lemma DoubleStep(s: State, e: Event, w: World)
    requires e.EndDouble? || e.Rate?
    ensures Untouched(s, Step(s, e, w))
  {
    hide Owner;
  }

  lemma PeopleMoves(s: State, e: Event, w: World)
    requires e.Heartbeat? || e.AdminAward?
    ensures Calm(s, Step(s, e, w))
  {
    hide Calm, Deals, IsMobile;
    CalmDeals(s, Step(s, e, w));
  }

  lemma LettersMoves(s: State, e: Event, w: World)
    requires e.LetterLockout? || e.LettersDone?
    ensures Calm(s, Step(s, e, w))
  {
    hide IsMobile;
  }

  lemma VotesMoves(s: State, e: Event, w: World)
    requires e.Vote? || e.SetThreshold?
    ensures Calm(s, Step(s, e, w))
  {
    hide EvaluateVotes, Owner, Calm;
    match e {
      case SetThreshold(pct) => VotesUntouched(s.(gate := s.gate.(pct := Half(pct))));
      case Vote(conn, _) =>
        if Owner(s.reg, conn).Some? {
          VotesUntouched(s.(gate := s.gate.(votes := s.gate.votes + {Owner(s.reg, conn).value})));
        }
    }
    Undisturbed(s, Step(s, e, w));
  }

  lemma VotesUntouched(s: State)
    ensures Untouched(s, EvaluateVotes(s)) && EvaluateVotes(s).reg == s.reg
  {
    hide ThresholdMet;
  }

  lemma HelloMoves(s: State, e: Event, w: World)
    requires e.Hello? && !Forgets(s, e)
    ensures Calm(s, Step(s, e, w))
  {
  }

  lemma EndGameMoves(s: State)
    requires !InPlay(s)
    ensures Calm(s, OnEndGame(s))
  {
    hide FinishDaily;
    if s.phase == DailyDouble {
      FinishCalm(s);
    }
  }

  lemma StepMoves(s: State, e: Event, w: World)
    requires RoundInv(s) && Curated(s) && WellFormed(s.board)
    requires !Abandons(s, e) && !NewGame(s, e) && !Forgets(s, e)
    ensures Moves(s, Step(s, e, w))
  {
    hide Step, Moves, Calm, RoundInv, Curated, WellFormed, Live, Deals, Forgets;
    if e.Connect? || e.StartGame? || e.SetVolume? || e.EndDouble? || e.Rate? || e.FadeRamp? || e.SoloPlay?
        || e.SoloStop? {
      QuietMoves(s, e, w);
      CalmMoves(s, Step(s, e, w));
    } else if e.Heartbeat? || e.AdminAward? || e.LetterLockout? || e.LettersDone? || e.Vote?
        || e.SetThreshold? || e.Hello? {
      PeopleStep(s, e, w);
    } else if e.Disconnect? || e.Kick? {
      DepartDeals(s, e, w);
      DealsMoves(s, Step(s, e, w));
    } else if e.AdminSelect? || e.PlayerSelect? {
      SelectionStep(s, e, w);
    } else if e.SkipDouble? || e.Decide? || e.Choose? {
      DoublesStep(s, e, w);
    } else if e.EndGame? || e.ResetToLobby? {
      FinalStep(s, e, w);
      CalmMoves(s, Step(s, e, w));
    } else {
      RoundsStep(s, e, w);
    }
  }

  lemma CalmMoves(s: State, t: State)
    requires Calm(s, t)
    ensures Moves(s, t)
  {
  }

  lemma DealsMoves(s: State, t: State)
    requires Deals(s, t)
    ensures Moves(s, t)
  {
  }

  lemma PeopleStep(s: State, e: Event, w: World)
    requires e.Heartbeat? || e.AdminAward? || e.LetterLockout? || e.LettersDone? || e.Vote? || e.SetThreshold?
             || e.Hello?
    requires !Forgets(s, e)
    ensures Moves(s, Step(s, e, w))
  {
    hide Step, Calm, Forgets;
    if e.Heartbeat? || e.AdminAward? {
      PeopleMoves(s, e, w);
    } else if e.LetterLockout? || e.LettersDone? {
      LettersMoves(s, e, w);
    } else if e.Vote? || e.SetThreshold? {
      VotesMoves(s, e, w);
    } else {
      HelloMoves(s, e, w);
    }
  }

  lemma SelectionStep(s: State, e: Event, w: World)
    requires e.AdminSelect? || e.PlayerSelect?
    ensures Moves(s, Step(s, e, w))
  {
    hide SelectCell, PickAccepted, Live, BarsKept;
    if e.AdminSelect? {
      SelectDeals(s, e.at, w);
    } else {
      Undisturbed(s, s);
      if PickAccepted(s, e.conn, e.nonce, e.at) {
        PickPhase(s, e.conn, e.nonce, e.at);
        SelectDeals(s, e.at, w);
        PickCalm(s, e.at);
      }
    }
  }

  lemma PickCalm(s: State, at: Coord)
    requires s.phase in {Karaoke, BoardUp}
    ensures var t := s.(gate := s.gate.(pick := Some(at))); Calm(s, t) && Calm(s, BeginTransition(t))
  {
  }

  lemma DoublesStep(s: State, e: Event, w: World)
    requires Curated(s) && WellFormed(s.board)
    requires e.SkipDouble? || e.Decide? || e.Choose?
    ensures Moves(s, Step(s, e, w))
  {
    hide SkipDaily, OnChoose, OnDecide, Live, Curated, WellFormed, Moves, Deals;
    match e
    case SkipDouble => SkipDeals(s, w); DealsMoves(s, SkipDaily(s, w));
    case Decide(conn, nonce, accept) =>
      DecideDeals(s, conn, nonce, accept, w);
      DealsMoves(s, OnDecide(s, conn, nonce, accept, w));
    case Choose(conn, nonce, song) => ChooseMoves(s, conn, nonce, song, w);
  }

  lemma DecideDeals(s: State, conn: ConnId, nonce: nat, accept: bool, w: World)
    ensures Deals(s, OnDecide(s, conn, nonce, accept, w))
  {
    hide Decline, FromContestant, Shuffled, Live;
    DeclineDeals(s, w);
    ContestantDecides(s, conn, nonce);
  }

  lemma RoundsStep(s: State, e: Event, w: World)
    requires RoundInv(s)
    requires e.Grade? || e.Buzz? || e.AdminReveal? || e.EndRound? || e.TrackEnded? || e.Fire?
    ensures Moves(s, Step(s, e, w))
  {
    hide OnGrade, OnBuzz, EndRoundNow, CloseRound, OnTrackEnded, OnFire, RoundInv, Calm, Starts, Ends, Sings,
         Wins, Resumes;
    match e
    case Grade(v) => GradeMoves(s, v, w);
    case Buzz(conn, nonce, arrival) => BuzzMoves(s, conn, nonce, arrival, w);
    case AdminReveal => CloseRoundEnds(s, w.now);
    case EndRound => EndRoundMoves(s, w);
    case TrackEnded(queueOver) => TrackEndedMoves(s, queueOver, w);
    case Fire(what) => FireMoves(s, what, w);
  }

  lemma FinalStep(s: State, e: Event, w: World)
    requires (e.EndGame? && !InPlay(s)) || (e.ResetToLobby? && s.phase != GameOver)
    ensures Calm(s, Step(s, e, w))
  {
    hide OnEndGame;
    if e.EndGame? {
      EndGameMoves(s);
    }
  }

  lemma ForgetsTracks(s: State, e: Event, w: World)
    requires Forgets(s, e)
    ensures var t := Step(s, e, w);
            && SameDeck(s, t) && t.phase == s.phase && t.round == s.round && t.ledger == s.ledger
            && Anonymous(e.conn) in t.reg.players && !t.reg.players[Anonymous(e.conn)].guessed
  {
  }

  lemma AbandonsTracks(s: State, w: World)
    requires InPlay(s)
    ensures var t := Step(s, EndGame, w);
            SameDeck(s, t) && !InPlay(t) && t.round == s.round && t.ledger == s.ledger && t.phase == GameOver
  {
  }

  /**
   * Within a game every command keeps the tracks and the number of rounds in
   * step, except exactly an End Game that abandons a round: its track stays live.
   */
  lemma TrackStep(s: State, e: Event, w: World)
    requires RoundInv(s) && Curated(s) && WellFormed(s.board) && TrackInv(s)
    requires !NewGame(s, e)
    ensures var t := Step(s, e, w);
            && (TrackInv(t) <==> !Abandons(s, e))
            && (t.ledger.rounds + Startable(t) == s.ledger.rounds + Startable(s) <==> !Abandons(s, e))
            && (InPlay(s) && !InPlay(t) && !Abandons(s, e) ==> |Live(t)| == |Live(s)| - 1)
            && (!(InPlay(s) && !InPlay(t) && !Abandons(s, e)) ==> Live(t) == Live(s))
  {
    hide Step, Moves, OnBoard, RoundInv, Curated;
    var t := Step(s, e, w);
    if Abandons(s, e) {
      AbandonsTracks(s, w);
      assert Live(t) == Live(s);
    } else if Forgets(s, e) {
      ForgetsTracks(s, e, w);
      assert Live(t) == Live(s);
    } else {
      StepMoves(s, e, w);
      MovesKeep(s, t);
    }
  }

  /** A New Game makes every playable track of the board live again. */
  lemma NewGameRefills(s: State, w: World)
    requires s.phase == GameOver
    ensures var t := Step(s, ResetToLobby, w);
            && Live(t) == (set x | x in s.board.playable && OnBoard(s.board, x))
            && TrackInv(t) && GradedInv(t) && t.ledger.rounds == 0
  {
    hide ClearScores;
  }

  /**
   * The record of who was graded on what bars a second adjudication, except
   * across exactly two commands: a Hello without a fingerprint that wipes a
   * graded player, and an End Game that abandons a track somebody was graded on.
   */
  lemma GradedStep(s: State, e: Event, w: World)
    requires RoundInv(s) && Curated(s) && WellFormed(s.board) && TrackInv(s) && GradedInv(s)
    requires !NewGame(s, e)
    ensures GradedInv(Step(s, e, w)) <==>
            !(Forgets(s, e) || (Abandons(s, e) && exists p :: (s.round.track.value, p) in s.ledger.graded))
  {
    hide Step, Moves, RoundInv, Curated, OnBoard;
    var t := Step(s, e, w);
    if Abandons(s, e) {
      AbandonsTracks(s, w);
      if exists p :: (s.round.track.value, p) in s.ledger.graded {
        var p :| (s.round.track.value, p) in s.ledger.graded;
        assert (s.round.track.value, p) in t.ledger.graded && !Barred(t, p);
      } else {
        assert forall x, p :: (x, p) in s.ledger.graded ==> x in s.played;
      }
    } else if Forgets(s, e) {
      ForgetsTracks(s, e, w);
      var p := Anonymous(e.conn);
      assert (s.round.track.value, p) in t.ledger.graded && !Barred(t, p);
    } else {
      StepMoves(s, e, w);
      MovesKeep(s, t);
    }
  }

  /** No player is adjudicated twice on one track, reconnections included: a grade is always the first. */
  lemma GradedOnce(s: State, v: Verdict, w: World)
    requires RoundInv(s) && GradedInv(s) && s.phase == Adjudicate && v != Unknown
    ensures var mark := (s.round.track.value, s.round.winner.value);
            mark !in s.ledger.graded && Step(s, Grade(v), w).ledger.graded == s.ledger.graded + {mark}
  {
    hide RoundPool, PoolAfterPartial, Voters, KeysFresh, GateIdle, PointsInv, Scoring.PoolPoints;
  }

  // ---- Whole games ----

  /** A run that abandons no round and in which no graded attendee drops its identity. */
  ghost predicate Steady(s: State, run: Run)
    decreases |run|
  {
    run != [] ==>
      && !Abandons(s, run[0].0) && !Forgets(s, run[0].0)
      && Steady(Step(s, run[0].0, run[0].1), run[1..])
  }

  ghost predicate SameGame(s: State, run: Run)
    decreases |run|
  {
    run != [] ==> !NewGame(s, run[0].0) && SameGame(Step(s, run[0].0, run[0].1), run[1..])
  }

  ghost predicate Ready(s: State) {
    RoundInv(s) && Curated(s) && WellFormed(s.board) && TrackInv(s) && GradedInv(s)
  }

  lemma ReadyStep(s: State, e: Event, w: World)
    requires Ready(s) && !Abandons(s, e) && !Forgets(s, e)
    ensures var t := Step(s, e, w);
            Ready(t) && (!NewGame(s, e) ==> t.ledger.rounds + Startable(t) == s.ledger.rounds + Startable(s))
  {
    hide Step, RoundInv, Curated, WellFormed, GradedInv, Moves, Startable, TrackInv, Forgets, NewGame;
    var t := Step(s, e, w);
    RoundStep(s, e, w);
    CuratedStep(s, e, w);
    StepFramed(s, e, w);
    if NewGame(s, e) {
      NewGameStep(s, e, w);
    } else {
      StepMoves(s, e, w);
      MovesKeep(s, t);
    }
  }

  lemma NewGameStep(s: State, e: Event, w: World)
    requires NewGame(s, e)
    ensures TrackInv(Step(s, e, w)) && GradedInv(Step(s, e, w))
  {
    NewGameRefills(s, w);
  }

  lemma InitReady(s: State)
    requires Init(s)
    ensures Ready(s)
  {
    hide Curated;
    InitInv(s);
    InitSongs(s);
  }

  lemma {:induction false} ReadyRun(s: State, run: Run)
    requires Ready(s) && Steady(s, run)
    ensures Ready(After(s, run))
    ensures var t := After(s, run);
            SameGame(s, run) ==> t.ledger.rounds + Startable(t) == s.ledger.rounds + Startable(s)
    decreases |run|
  {
    hide Step, Ready, Startable, NewGame, Abandons, Forgets;
    if run != [] {
      ReadyStep(s, run[0].0, run[0].1);
      ReadyRun(Step(s, run[0].0, run[0].1), run[1..]);
    }
  }

  /**
   * From a fresh engine, over any number of games, whatever the admin does: in
   * each game every round started uses up one startable track, so the rounds
   * are bounded by the tracks there were, and nobody's bar is ever lost.
   */
  lemma GameIsBounded(s: State, before: Run, game: Run)
    requires Init(s) && Steady(s, before)
    requires Steady(After(s, before), game) && SameGame(After(s, before), game)
    ensures var t, u := After(s, before), After(After(s, before), game);
            && u.ledger.rounds + Startable(u) == t.ledger.rounds + Startable(t)
            && u.ledger.rounds <= t.ledger.rounds + |Live(t)|
            && TrackInv(u) && GradedInv(u)
  {
    hide After, Steady, SameGame, Ready, Live;
    InitReady(s);
    ReadyRun(s, before);
    ReadyRun(After(s, before), game);
    ReadyTracks(After(s, before));
    ReadyTracks(After(After(s, before), game));
  }

  lemma ReadyTracks(s: State)
    requires Ready(s)
    ensures TrackInv(s) && GradedInv(s) && 0 <= Startable(s) <= |Live(s)|
  {
    if InPlay(s) {
      assert |Live(s) - {s.round.track.value}| == |Live(s)| - 1;
    }
  }
}
