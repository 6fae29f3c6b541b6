/**
 * The Daily Double books: the bucket, the offer, the songs performed, the
 * flags and the visits. `BooksStep` says what each command can do to them, and
 * everything proved about songs, flags and the budget follows from it.
 */
module Books {
  import opened Common
  import opened Registry
  import opened BuzzWindow
  import opened EngineState
  import Scoring

  function VisitsOf(visits: map<Coord, nat>, c: Coord): nat {
    if c in visits then visits[c] else 0
  }

  function OnOffer(d: Doubles): seq<TrackId> {
    if d.offer.Some? then d.offer.value.candidates else []
  }

  // ---- Which command selects what ----

  /** The cell a command selects, if it selects one. */
  function Selected(s: State, e: Event): Option<Coord> {
    match e
    case AdminSelect(at) => if Busy(s) then None else Some(at)
    case PlayerSelect(conn, nonce, at) =>
      if s.phase == BoardUp && PickAccepted(s, conn, nonce, at) then Some(at) else None
    case Fire(Countdown) => if s.phase == Transition && Countdown in s.pending then s.gate.pick else None
    case _ => None
  }

  /** The cell whose visit a command counts: one that is selected and still has a track to play. */
  function Counted(s: State, e: Event): Option<Coord> {
    var c := Selected(s, e);
    if c.Some? && Unplayed(s.board, s.played, c.value) != [] then c else None
  }

  /** Somebody is there to be offered a Daily Double. */
  predicate HasContestant(s: State) {
    || (s.dd.lastScorer.Some? && Present(s.reg, s.dd.lastScorer.value))
    || Filter(s.reg.roster, PresentMobile(s.reg)) != []
  }

  /** The next counted visit of a flagged cell is its trigger visit. */
  predicate Due(s: State, c: Coord) {
    c in s.dd.trigger && s.dd.trigger[c] == VisitsOf(s.dd.visits, c) + 1
  }

  predicate OpensOffer(s: State, e: Event) {
    Counted(s, e).Some? && Due(s, Counted(s, e).value) && HasContestant(s)
  }

  predicate NewGame(s: State, e: Event) {
    e.ResetToLobby? && s.phase == GameOver
  }

  /** A Start Game that is accepted, and so deals the flags anew. */
  predicate Deals(s: State, e: Event, w: World) {
    e.StartGame? && s.phase == Lobby && !s.solo && ValidDeal(s, w.deal)
  }

  lemma CountedPlays(s: State, e: Event, w: World)
    ensures Counted(s, e).Some? ==> !NewGame(s, e) && !Deals(s, e, w)
  {
  }

  // ---- The ways the books can change ----

  predicate SameBooks(s: State, t: State) {
    && t.board == s.board && t.ledger.performed == s.ledger.performed && t.ledger.performances == s.ledger.performances
    && t.dd.bucket == s.dd.bucket && t.dd.offer == s.dd.offer
    && t.dd.trigger == s.dd.trigger && t.dd.visits == s.dd.visits
  }

  /** A selection of `c` is counted: it opens an offer, or starts a round and drops a flag that found nobody. */
  predicate Selects(s: State, c: Coord, t: State) {
    && SameBooks(s, t.(dd := t.dd.(trigger := s.dd.trigger, visits := s.dd.visits, offer := s.dd.offer)))
    && t.dd.visits == s.dd.visits[c := VisitsOf(s.dd.visits, c) + 1]
    && if Due(s, c) && HasContestant(s) then
         && t.phase == DailyDouble && t.dd.trigger == s.dd.trigger
         && t.dd.offer.Some? && t.dd.offer.value.cell == c && t.dd.offer.value.candidates == []
       else
         && t.phase == RoundActive && t.dd.offer == s.dd.offer
         && t.dd.trigger == if Due(s, c) then s.dd.trigger - {c} else s.dd.trigger
  }

  predicate Deciding(s: State) {
    s.phase == DailyDouble && s.dd.offer.Some?
  }

  /** `n` is flagged for its very next counted visit. */
  predicate Rearmed(s: State, cell: Coord, trigger: map<Coord, nat>, n: Coord) {
    n != cell && n !in s.dd.trigger && trigger == (s.dd.trigger - {cell})[n := VisitsOf(s.dd.visits, n) + 1]
  }

  /** An offer is declined: its songs go back, its cell loses the flag, and another cell may get it. */
  ghost predicate Declines(s: State, t: State) {
    && Deciding(s)
    && SameBooks(s, t.(dd := t.dd.(trigger := s.dd.trigger, bucket := s.dd.bucket, offer := s.dd.offer)))
    && t.dd.bucket == s.dd.bucket + OnOffer(s.dd) && t.dd.offer.None?
    && t.phase in {RoundActive, BoardUp}
    && var cell := s.dd.offer.value.cell;
       t.dd.trigger == s.dd.trigger - {cell} || exists n :: n in t.dd.trigger && Rearmed(s, cell, t.dd.trigger, n)
  }

  /** Songs are drawn from the bucket for an offer that has none yet. */
  predicate Draws(s: State, t: State) {
    && Deciding(s)
    && SameBooks(s, t.(dd := t.dd.(bucket := s.dd.bucket, offer := s.dd.offer)))
    && s.dd.offer.value.candidates == []
    && t.dd.offer.Some? && t.dd.offer.value == s.dd.offer.value.(candidates := OnOffer(t.dd))
    && multiset(t.dd.bucket) + multiset(OnOffer(t.dd)) == multiset(s.dd.bucket)
  }

  /** One of the songs on offer is performed, and the others go back. */
  predicate Performs(s: State, song: TrackId, t: State) {
    && Deciding(s) && song in s.dd.offer.value.candidates
    && t.board == s.board && t.dd.offer.None? && t.dd.trigger == s.dd.trigger && t.dd.visits == s.dd.visits
    && t.dd.bucket == s.dd.bucket + Unchosen(s.dd.offer.value.candidates, song)
    && t.ledger.performed == s.ledger.performed + [song]
    && t.ledger.performances == s.ledger.performances + 1
    && t.phase == DailyDouble
  }

  /** Everything a command other than a New Game or an accepted Start Game can do to the books. */
  ghost predicate Moves(s: State, e: Event, t: State) {
    && (t.phase == Lobby ==> s.phase == Lobby)
    && if Counted(s, e).Some? then Selects(s, Counted(s, e).value, t)
       else || SameBooks(s, t) || Declines(s, t) || Draws(s, t) || (e.Choose? && Performs(s, e.song, t))
  }

  // ---- Handler by handler ----

  lemma StartCellBooks(s: State, c: Coord, w: World)
    ensures SameBooks(s, StartCellNormally(s, c, w))
    ensures StartCellNormally(s, c, w).phase == if Unplayed(s.board, s.played, c) == [] then BoardUp else RoundActive
  {
    hide Unplayed;
  }

  lemma BeginOfferBooks(s: State, c: Coord, w: World)
    requires Unplayed(s.board, s.played, c) != []
    ensures var r := BeginOffer(s, c, w);
            if HasContestant(s) then
              && SameBooks(s, r.(dd := r.dd.(offer := s.dd.offer)))
              && r.dd.offer.Some? && r.dd.offer.value.cell == c && r.dd.offer.value.candidates == []
              && r.phase == DailyDouble && r.round.track == s.round.track
            else SameBooks(Unflag(s, c), r) && r.phase == RoundActive
  {
    hide StartCellNormally, OpenOffer, Unplayed, Filter, PresentMobile, Present;
    StartCellBooks(Unflag(s, c), c, w);
    if s.dd.lastScorer.Some? && Present(s.reg, s.dd.lastScorer.value) {
      OpenOfferBooks(s, c, s.dd.lastScorer.value);
    } else if Filter(s.reg.roster, PresentMobile(s.reg)) != [] {
      OpenOfferBooks(s, c, Pick(Filter(s.reg.roster, PresentMobile(s.reg)), w.player));
    }
  }

  lemma OpenOfferBooks(s: State, c: Coord, p: PlayerId)
    ensures var r := OpenOffer(s, c, p);
            && SameBooks(s, r.(dd := r.dd.(offer := s.dd.offer)))
            && r.dd.offer.Some? && r.dd.offer.value.cell == c && r.dd.offer.value.candidates == []
            && r.phase == DailyDouble && r.round.track == s.round.track
  {
  }

  lemma StartTrackBooks(s: State, c: Coord, t: TrackId, now: int)
    ensures SameBooks(s, StartTrack(s, c, t, now)) && StartTrack(s, c, t, now).phase == RoundActive
  {
  }

  /** A visit fires a flagged cell exactly when it is due. */
  lemma VisitFires(s: State, c: Coord)
    ensures Fires(Visit(DropPick(s), c), c) <==> Due(s, c)
    ensures Visit(DropPick(s), c) == DropPick(s).(dd := s.dd.(visits := s.dd.visits[c := VisitsOf(s.dd.visits, c) + 1]))
  {
  }

  lemma ContestantReads(s: State, t: State)
    requires s.reg == t.reg && s.dd.lastScorer == t.dd.lastScorer
    ensures HasContestant(s) <==> HasContestant(t)
  {
  }

  lemma SelectBooks(s: State, c: Coord, w: World)
    ensures var r := SelectCell(s, c, w);
            if Busy(s) then r == s
            else if Unplayed(s.board, s.played, c) == [] then SameBooks(s, r) && r.phase == s.phase
            else Selects(s, c, r) && (r.phase == DailyDouble ==> r.round.track == s.round.track)
  {
    hide BeginOffer, StartTrack, Unplayed, HasContestant, Fires, Visit, Due;
    if !Busy(s) && Unplayed(s.board, s.played, c) != [] {
      var s2 := Visit(DropPick(s), c);
      VisitFires(s, c);
      ContestantReads(s, s2);
      if Due(s, c) {
        BeginOfferBooks(s2, c, w);
      } else {
        StartTrackBooks(s2, c, Pick(Unplayed(s2.board, s2.played, c), w.track), w.now);
      }
    }
  }

  /** The cell picked to take over from a declined one. */
  lemma RearmBooks(s: State, cell: Coord, die: nat)
    requires cell !in s.dd.trigger
    ensures var r, heirs := Rearm(s, cell, die), Filter(s.board.grid, Heirs(s, cell));
            && r == s.(dd := s.dd.(trigger := r.dd.trigger))
            && if heirs == [] then r == s
               else
                 var n := Pick(heirs, die);
                 && n != cell && n !in s.dd.trigger && Unplayed(s.board, s.played, n) != []
                 && r.dd.trigger == s.dd.trigger[n := VisitsOf(s.dd.visits, n) + 1]
  {
    hide Filter, Unplayed;
  }

  /** The state in which a declined offer looks for its replacement. */
  function Returned(s: State): State
    requires s.dd.offer.Some?
  {
    var o := s.dd.offer.value;
    var s1 := Unflag(s, o.cell);
    s1.(dd := s1.dd.(bucket := s1.dd.bucket + o.candidates, offer := None))
  }

  lemma DeclineBooks(s: State, w: World)
    ensures var r := Decline(s, w);
            if !Deciding(s) then r == s
            else
              && Declines(s, r)
              && var o := s.dd.offer.value;
                 var heirs := Filter(s.board.grid, Heirs(Returned(s), o.cell));
                 r.dd.trigger == (if heirs == [] then s.dd.trigger - {o.cell}
                                  else var n := Pick(heirs, w.cell);
                                       (s.dd.trigger - {o.cell})[n := VisitsOf(s.dd.visits, n) + 1])
  {
    hide StartCellNormally, Rearm, Filter, Heirs, Unplayed;
    if Deciding(s) {
      var o := s.dd.offer.value;
      var s2 := Returned(s);
      RearmBooks(s2, o.cell, w.cell);
      var s3 := Rearm(s2, o.cell, w.cell);
      StartCellBooks(s3, o.cell, w);
      var heirs := Filter(s.board.grid, Heirs(s2, o.cell));
      if heirs != [] {
        assert Rearmed(s, o.cell, s3.dd.trigger, Pick(heirs, w.cell));
      }
    }
  }

  lemma FinishBooks(s: State)
    ensures SameBooks(s, FinishDaily(s)) && FinishDaily(s).phase == BoardUp
  {
    hide Scoring.Payout;
  }

  lemma SkipBooks(s: State, w: World)
    ensures var r := SkipDaily(s, w);
            (SameBooks(s, r) || Declines(s, r)) && (r.phase == s.phase || r.phase in {RoundActive, BoardUp})
  {
    hide Decline, FinishDaily, Declines;
    DeclineBooks(s, w);
    FinishBooks(s);
    DeclinesPhase(s, Decline(s, w));
  }

  lemma DeclinesPhase(s: State, t: State)
    ensures Declines(s, t) ==> t.phase in {RoundActive, BoardUp} && t.dd.offer.None?
  {
  }

  lemma EndRoundBooks(s: State, w: World)
    ensures var r := EndRoundNow(s, w);
            (SameBooks(s, r) || Declines(s, r)) && r.phase != Lobby
  {
    hide SkipDaily, Declines;
    SkipBooks(s, w);
  }

  lemma EndGameBooks(s: State)
    ensures SameBooks(s, OnEndGame(s)) && OnEndGame(s).phase == GameOver
    ensures SameBooks(s, FadeOut(s)) && FadeOut(s).phase == s.phase
  {
    hide FinishDaily;
    FinishBooks(s);
  }

  lemma CloseRoundBooks(s: State, now: int)
    ensures SameBooks(s, CloseRound(s, now)) && CloseRound(s, now).phase == Karaoke
  {
    hide Voters;
  }

  lemma ResolveBooks(s: State, key: Key, w: World)
    ensures SameBooks(s, ResolveWindow(s, key, w)) && ResolveWindow(s, key, w).phase in {s.phase, Adjudicate}
    ensures s.phase != RoundActive ==> ResolveWindow(s, key, w) == s
  {
    hide Winner, Eligible;
  }

  lemma BuzzBooks(s: State, conn: ConnId, nonce: nat, arrival: int, w: World)
    ensures var r := OnBuzz(s, conn, nonce, arrival, w);
            SameBooks(s, r) && r.phase in {s.phase, Adjudicate} && (s.phase != RoundActive ==> r == s)
  {
    hide ResolveWindow, Enqueue;
    var who := Owner(s.reg, conn);
    if who.Some? {
      var s1 := s.(round := s.round.(windowOpen := true, contenders := [Contender(who.value, conn, arrival)]));
      ResolveBooks(s1, s1.round.key, w);
    }
  }

  lemma CorrectBooks(s: State, p: PlayerId, now: int)
    requires p in s.reg.players
    ensures SameBooks(s, GradeCorrect(s, p, now)) && GradeCorrect(s, p, now).phase == Karaoke
  {
    hide CloseRound, RoundPool, Scoring.PoolPoints;
    var (ceiling, floor) := RoundPool(s.round);
    var s1 := AwardRound(s, p, Scoring.PoolPoints(ceiling, floor, s.round.pausedMs));
    CloseRoundBooks(ConsumeTrack(s1.(gate := s1.gate.(picker := Some(p)))), now);
  }

  lemma PartialBooks(s: State, p: PlayerId, now: int)
    requires p in s.reg.players
    ensures SameBooks(s, GradePartial(s, p, now)) && GradePartial(s, p, now).phase in {Karaoke, RoundActive}
  {
    hide CloseRound, PoolAfterPartial;
    var s1 := AwardRound(s, p, Scoring.PARTIAL);
    CloseRoundBooks(ConsumeTrack(s1.(round := s1.round.(partial := Some(PoolAfterPartial(s.round))))), now);
  }

  lemma GradeBooks(s: State, v: Verdict, w: World)
    ensures var r := OnGrade(s, v, w);
            SameBooks(s, r) && (r.phase == Lobby ==> s.phase == Lobby) && (s.phase != Adjudicate ==> r == s)
            && r.phase in {s.phase, Adjudicate, RoundActive, Karaoke, BoardUp}
  {
    hide GradeCorrect, GradePartial;
    if s.phase == Adjudicate && s.round.winner.Some? && s.round.winner.value in s.reg.players {
      var p := s.round.winner.value;
      var s1 := s.(reg := SetPlayer(s.reg, p, s.reg.players[p].(guessed := true)));
      var s2 := if s.round.track.Some?
                then s1.(ledger := s1.ledger.(graded := s1.ledger.graded + {(s.round.track.value, p)})) else s1;
      CorrectBooks(s2, p, w.now);
      PartialBooks(s2, p, w.now);
    }
  }

  lemma VotesBooks(s: State)
    ensures SameBooks(s, EvaluateVotes(s)) && EvaluateVotes(s).phase in {s.phase, Transition}
    ensures SameBooks(s, ConditionMet(s)) && ConditionMet(s).phase in {s.phase, Transition}
  {
    hide ThresholdMet;
  }

  /** Leaving changes the books only by declining one's own offer. */
  lemma LeaveBooks(s: State, p: PlayerId, w: World)
    ensures var r := DailyWithout(EvaluateVotes(LeavePools(s, p)), p, w);
            (SameBooks(s, r) || Declines(s, r)) && (r.phase == Lobby ==> s.phase == Lobby)
  {
    hide DailyWithout, EvaluateVotes, Declines;
    var t := EvaluateVotes(LeavePools(s, p));
    var r := DailyWithout(t, p, w);
    VotesBooks(LeavePools(s, p));
    WithoutBooks(t, p, w);
    DeclinesPhase(t, r);
    if Deciding(t) && Declines(t, r) {
      VotesOutside(LeavePools(s, p));
      DeclinesFrom(s, t, r);
    }
  }

  lemma WithoutBooks(s: State, p: PlayerId, w: World)
    ensures var r := DailyWithout(s, p, w);
            (SameBooks(s, r) && r.phase == s.phase) || (Deciding(s) && Declines(s, r))
  {
    hide Decline, FadeOut, Declines;
    DeclineBooks(s, w);
    EndGameBooks(s);
  }

  lemma VotesOutside(s: State)
    ensures EvaluateVotes(s).phase == DailyDouble ==> s.phase == DailyDouble
  {
    hide ThresholdMet;
  }

  lemma DeclinesFrom(s: State, t: State, r: State)
    requires SameBooks(s, t) && Declines(t, r) && s.phase == DailyDouble
    ensures Declines(s, r)
  {
    var cell := s.dd.offer.value.cell;
    if r.dd.trigger != s.dd.trigger - {cell} {
      var n :| n in r.dd.trigger && Rearmed(t, cell, r.dd.trigger, n);
      assert Rearmed(s, cell, r.dd.trigger, n);
    }
  }

  lemma DeclinesInto(s: State, r: State, u: State)
    requires SameBooks(r, u) && u.phase == r.phase
    ensures Declines(s, r) ==> Declines(s, u)
  {
  }

  lemma DepartBooks(s: State, e: Event, w: World)
    requires e.Disconnect? || e.Kick?
    ensures var r := Step(s, e, w);
            (SameBooks(s, r) || Declines(s, r)) && (r.phase == Lobby ==> s.phase == Lobby)
  {
    hide OnDisconnect, OnKick, Declines, SameBooks;
    match e
    case Disconnect(conn) => DisconnectBooks(s, conn, w);
    case Kick(p, ban) => KickBooks(s, p, ban, w);
  }

  lemma DisconnectBooks(s: State, conn: ConnId, w: World)
    ensures var r := OnDisconnect(s, conn, w);
            (SameBooks(s, r) || Declines(s, r)) && (r.phase == Lobby ==> s.phase == Lobby)
  {
    hide DailyWithout, EvaluateVotes, LeavePools, RemoveConn, Declines;
    var (reg, gone) := RemoveConn(s.reg, conn);
    if gone.Some? {
      var s1 := s.(reg := reg);
      var r := DailyWithout(EvaluateVotes(LeavePools(s1, gone.value)), gone.value, w);
      LeaveBooks(s1, gone.value, w);
      DeclinesSame(s, s1, r);
      DeclinesInto(s, r, ClearGate(r));
      if r.phase == Karaoke {
        DeclinesPhase(s, r);
      }
    }
  }

  lemma KickBooks(s: State, p: PlayerId, ban: bool, w: World)
    ensures var r := OnKick(s, p, ban, w);
            (SameBooks(s, r) || Declines(s, r)) && (r.phase == Lobby ==> s.phase == Lobby)
  {
    hide DailyWithout, EvaluateVotes, LeavePools, Declines;
    if p in s.reg.players {
      var s1 := if ban then s.(reg := SetPlayer(s.reg, p, s.reg.players[p].(banned := true))) else s;
      var r := DailyWithout(EvaluateVotes(LeavePools(s1, p)), p, w);
      LeaveBooks(s1, p, w);
      DeclinesSame(s, s1, r);
      DeclinesInto(s, r, ClearGate(r));
    }
  }

  lemma DeclinesSame(s: State, t: State, r: State)
    requires t == s.(reg := t.reg)
    ensures Declines(t, r) ==> Declines(s, r)
  {
    if Declines(t, r) {
      DeclinesFrom(s, t, r);
    }
  }

  lemma DecideBooks(s: State, conn: ConnId, nonce: nat, accept: bool, w: World)
    ensures var r := OnDecide(s, conn, nonce, accept, w);
            (SameBooks(s, r) || Declines(s, r) || Draws(s, r)) && (r.phase == Lobby ==> s.phase == Lobby)
  {
    hide Decline, Declines, FromContestant, Draws;
    ContestantDecides(s, conn, nonce);
    DeclineBooks(s, w);
    DeclinesPhase(s, Decline(s, w));
    if FromContestant(s, conn, nonce) && accept && s.dd.offer.value.candidates == [] && s.dd.bucket != [] {
      DrawBooks(s, conn, nonce, w);
    }
  }

  lemma ContestantDecides(s: State, conn: ConnId, nonce: nat)
    ensures FromContestant(s, conn, nonce) ==> Deciding(s)
  {
  }

  lemma DrawBooks(s: State, conn: ConnId, nonce: nat, w: World)
    requires FromContestant(s, conn, nonce) && s.dd.offer.value.candidates == [] && s.dd.bucket != []
    ensures Draws(s, OnDecide(s, conn, nonce, true, w))
  {
    hide Owner, Decline;
    var bucket := Shuffled(s.dd.bucket, w.songs);
    var n := if |bucket| < 5 then |bucket| else 5;
    assert bucket == bucket[..n] + bucket[n..];
    assert multiset(bucket) == multiset(bucket[..n]) + multiset(bucket[n..]);
  }

  lemma ChooseBooks(s: State, conn: ConnId, nonce: nat, song: TrackId, w: World)
    ensures var r := OnChoose(s, conn, nonce, song, w);
            (SameBooks(s, r) || Declines(s, r) || Performs(s, song, r)) && (r.phase == Lobby ==> s.phase == Lobby)
  {
    hide Decline, Declines, Owner, Unchosen, PresentMobile;
    DeclineBooks(s, w);
    DeclinesPhase(s, Decline(s, w));
  }

  lemma CountdownBooks(s: State, w: World)
    requires Countdown in s.pending
    ensures Moves(s, Fire(Countdown), Step(s, Fire(Countdown), w))
  {
    hide SelectCell, Unplayed, HasContestant, Selects, Declines;
    var s1 := s.(pending := s.pending - multiset{Countdown});
    var s2 := TransitionTo(
      s1.(round := s1.round.(track := None, cell := None), gate := s1.gate.(pick := None)), BoardUp);
    if s.phase == Transition && s.gate.pick.Some? {
      SelectBooks(s2, s.gate.pick.value, w);
      ContestantReads(s, s2);
      SelectsFrom(s, s2, s.gate.pick.value, SelectCell(s2, s.gate.pick.value, w));
    }
  }

  lemma SelectsFrom(s: State, t: State, c: Coord, r: State)
    requires SameBooks(s, t) && (HasContestant(s) <==> HasContestant(t))
    ensures Selects(t, c, r) ==> Selects(s, c, r) && r.phase != Lobby
  {
    hide HasContestant;
  }

  lemma FireBooks(s: State, what: Deferred, w: World)
    requires !what.Countdown?
    ensures SameBooks(s, OnFire(s, what, w)) && (OnFire(s, what, w).phase == Lobby ==> s.phase == Lobby)
  {
    hide ResolveWindow, FireFade, FireAutoKaraoke;
    if what in s.pending {
      var s1 := s.(pending := s.pending - multiset{what});
      match what
      case BuzzTimer(key) => ResolveBooks(s1, key, w);
      case Fade(key) => FadeBooks(s1, key);
      case AutoKaraoke(key) => AutoBooks(s1, key, w.now);
    }
  }

  lemma FadeBooks(s: State, key: Key)
    ensures SameBooks(s, FireFade(s, key)) && FireFade(s, key).phase in {s.phase, BoardUp}
  {
    hide FinishDaily;
    FinishBooks(s);
  }

  lemma AutoBooks(s: State, key: Key, now: int)
    ensures SameBooks(s, FireAutoKaraoke(s, key, now)) && FireAutoKaraoke(s, key, now).phase in {s.phase, Karaoke}
  {
    hide CloseRound;
    CloseRoundBooks(ConsumeTrack(s), now);
  }

  lemma PeopleBooks(s: State, e: Event, w: World)
    requires e.Connect? || e.Hello? || e.Heartbeat? || e.AdminAward?
    ensures SameBooks(s, Step(s, e, w)) && Step(s, e, w).phase == s.phase
  {
    hide Owner, IsMobile, Resolve, AddConn, SetPlayer;
  }

  lemma VolumeBooks(s: State, e: Event, w: World)
    requires e.SetVolume? || e.FadeRamp?
    ensures SameBooks(s, Step(s, e, w)) && Step(s, e, w).phase == s.phase
  {
  }

  lemma SoloBooks(s: State, e: Event, w: World)
    requires e.SoloPlay? || e.SoloStop?
    ensures SameBooks(s, Step(s, e, w)) && Step(s, e, w).phase == s.phase
  {
  }

  lemma LettersBooks(s: State, e: Event, w: World)
    requires e.Rate? || e.LetterLockout? || e.LettersDone?
    ensures SameBooks(s, Step(s, e, w)) && Step(s, e, w).phase == s.phase
  {
    hide Owner, LockOut, ScheduleAutoKaraoke;
    if e.LetterLockout? || e.LettersDone? {
      ClockBooks(s, e.key);
    }
  }

  lemma ClockBooks(s: State, key: Key)
    ensures SameBooks(s, LockOut(s, key)) && LockOut(s, key).phase == s.phase
    ensures SameBooks(s, ScheduleAutoKaraoke(s, key)) && ScheduleAutoKaraoke(s, key).phase == s.phase
  {
    hide IsMobile, SetGuessed;
  }

  lemma VotingBooks(s: State, e: Event, w: World)
    requires e.Vote? || e.SetThreshold?
    ensures SameBooks(s, Step(s, e, w)) && Step(s, e, w).phase in {s.phase, Transition}
  {
    hide EvaluateVotes, Owner;
    match e
    case SetThreshold(pct) => VotesBooks(s.(gate := s.gate.(pct := Half(pct))));
    case Vote(conn, _) =>
      if Owner(s.reg, conn).Some? {
        VotesBooks(s.(gate := s.gate.(votes := s.gate.votes + {Owner(s.reg, conn).value})));
      }
  }

  lemma SelectionBooks(s: State, e: Event, w: World)
    requires e.AdminSelect? || e.PlayerSelect?
    ensures Moves(s, e, Step(s, e, w))
  {
    hide SelectCell, Unplayed, HasContestant, PickAccepted, Selects, Declines, Draws, Performs;
    SelectBooks(s, e.at, w);
    SelectsFrom(s, s, e.at, SelectCell(s, e.at, w));
    if e.PlayerSelect? {
      PickLive(s, e.conn, e.nonce, e.at);
    }
  }

  lemma PickLive(s: State, conn: ConnId, nonce: nat, c: Coord)
    ensures PickAccepted(s, conn, nonce, c) ==> s.phase in {Karaoke, BoardUp} && Unplayed(s.board, s.played, c) != []
  {
  }

  lemma EndsBooks(s: State, e: Event, w: World)
    requires e.EndRound? || e.SkipDouble?
    ensures Moves(s, e, Step(s, e, w))
  {
    hide EndRoundNow, SkipDaily, Declines;
    SkipBooks(s, w);
    EndRoundBooks(s, w);
  }

  lemma FinalBooks(s: State, e: Event, w: World)
    requires e.EndGame? || e.EndDouble? || e.AdminReveal?
    ensures SameBooks(s, Step(s, e, w)) && (Step(s, e, w).phase == Lobby ==> s.phase == Lobby)
  {
    hide OnEndGame, FadeOut, CloseRound;
    EndGameBooks(s);
    CloseRoundBooks(ConsumeTrack(s), w.now);
  }

  lemma EndedBooks(s: State, e: Event, w: World)
    requires e.TrackEnded?
    ensures Moves(s, e, Step(s, e, w))
  {
    hide EndRoundNow, FinishDaily, ConditionMet, Declines;
    EndRoundBooks(s, w);
    FinishBooks(s);
    VotesBooks(s);
  }

  lemma SameBooksRefl(s: State)
    ensures SameBooks(s, s)
  {
  }

  /** The master lemma. */
  lemma BooksStep(s: State, e: Event, w: World)
    requires !NewGame(s, e) && !Deals(s, e, w)
    ensures Moves(s, e, Step(s, e, w))
  {
    match e {
      case AdminSelect(_) => hide *; SelectionBooks(s, e, w);
      case PlayerSelect(_, _, _) => hide *; SelectionBooks(s, e, w);
      case EndRound => hide *; EndsBooks(s, e, w);
      case SkipDouble => hide *; EndsBooks(s, e, w);
      case TrackEnded(_) => hide *; EndedBooks(s, e, w);
      case _ => OthersBooks(s, e, w);
    }
  }

  lemma TimersBooks(s: State, what: Deferred, w: World)
    ensures Moves(s, Fire(what), Step(s, Fire(what), w))
  {
    hide Declines, Selects, Unplayed, FireCountdown, ResolveWindow, FireFade, CloseRound;
    if what == Countdown && Countdown in s.pending {
      CountdownBooks(s, w);
    } else if what != Countdown {
      FireBooks(s, what, w);
    }
  }

  lemma OthersBooks(s: State, e: Event, w: World)
    requires !NewGame(s, e) && !Deals(s, e, w)
    requires !e.AdminSelect? && !e.PlayerSelect? && !e.EndRound? && !e.SkipDouble? && !e.TrackEnded?
    ensures Moves(s, e, Step(s, e, w))
  {
    hide Step, Declines, Draws, Performs, Selects, SameBooks, Deals, NewGame;
    SameBooksRefl(s);
    match e
    case Disconnect(_) => DepartBooks(s, e, w);
    case Kick(_, _) => DepartBooks(s, e, w);
    case Decide(conn, nonce, accept) => RefusedBooks(s, e, w); DecideBooks(s, conn, nonce, accept, w);
    case Choose(conn, nonce, song) => RefusedBooks(s, e, w); ChooseBooks(s, conn, nonce, song, w);
    case Grade(v) => RefusedBooks(s, e, w); GradeBooks(s, v, w);
    case Buzz(conn, nonce, arrival) => RefusedBooks(s, e, w); BuzzBooks(s, conn, nonce, arrival, w);
    case EndGame => FinalBooks(s, e, w);
    case EndDouble => FinalBooks(s, e, w);
    case AdminReveal => FinalBooks(s, e, w);
    case Vote(_, _) => VotingBooks(s, e, w);
    case SetThreshold(_) => VotingBooks(s, e, w);
    case StartGame => RefusedBooks(s, e, w);
    case ResetToLobby => RefusedBooks(s, e, w);
    case Fire(what) => TimersBooks(s, what, w);
    case Rate(_, _, _) => LettersBooks(s, e, w);
    case LetterLockout(_) => LettersBooks(s, e, w);
    case LettersDone(_) => LettersBooks(s, e, w);
    case Connect(_) => PeopleBooks(s, e, w);
    case Hello(_, _, _) => PeopleBooks(s, e, w);
    case Heartbeat(_) => PeopleBooks(s, e, w);
    case AdminAward(_, _) => PeopleBooks(s, e, w);
    case SetVolume(_) => VolumeBooks(s, e, w);
    case FadeRamp(_, _) => VolumeBooks(s, e, w);
    case _ => SoloBooks(s, e, w);
  }

  /** What `Step` is for the commands that one handler serves. */
  lemma RefusedBooks(s: State, e: Event, w: World)
    ensures match e
            case Decide(conn, nonce, accept) => Step(s, e, w) == OnDecide(s, conn, nonce, accept, w)
            case Choose(conn, nonce, song) => Step(s, e, w) == OnChoose(s, conn, nonce, song, w)
            case Grade(v) => Step(s, e, w) == OnGrade(s, v, w)
            case Buzz(conn, nonce, arrival) => Step(s, e, w) == OnBuzz(s, conn, nonce, arrival, w)
            case StartGame => Deals(s, e, w) || Step(s, e, w) == s
            case ResetToLobby => NewGame(s, e) || Step(s, e, w) == s
            case _ => true
  {
    hide OnDecide, OnChoose, OnGrade, OnBuzz, ResolveWindow, FireCountdown, FireFade, CloseRound, ValidDeal;
  }
}
