/**
 * Conservation of the Daily Double songs: the bucket, the songs on offer and
 * the songs performed always add up to the bucket the board was loaded with.
 */
module Songs {
  import opened Common
  import opened Registry
  import opened EngineState
  import opened Frames
  import opened Books

  function Accounted(d: Doubles, performed: seq<TrackId>): multiset<TrackId> {
    multiset(d.bucket) + multiset(OnOffer(d)) + multiset(performed)
  }

  ghost predicate Conserved(s: State) {
    Accounted(s.dd, s.ledger.performed) == multiset(s.board.bucket)
  }

  /** Songs still to be performed all come from the curated bucket, which shares nothing with the grid. */
  predicate Curated(s: State) {
    && (forall x :: x in s.dd.bucket ==> x in s.board.bucket)
    && (forall x :: x in OnOffer(s.dd) ==> x in s.board.bucket)
  }

  /** An offer opened on top of one whose songs were drawn and never returned. */
  predicate Overwrites(s: State, e: Event) {
    OpensOffer(s, e) && OnOffer(s.dd) != []
  }

  // ---- What each kind of move does to the songs ----

  lemma SelectsConserved(s: State, c: Coord, t: State)
    requires Conserved(s) && Selects(s, c, t)
    ensures Conserved(t) <==> !(Due(s, c) && HasContestant(s) && OnOffer(s.dd) != [])
  {
    hide Due, HasContestant;
    if OnOffer(s.dd) != [] && OnOffer(t.dd) == [] {
      assert |Accounted(t.dd, t.ledger.performed)| < |Accounted(s.dd, s.ledger.performed)|;
    }
  }

  lemma {:induction false} FilterRemoves(xs: seq<TrackId>, keep: set<TrackId>, x: TrackId)
    requires forall y :: y in xs && y != x ==> y in keep
    requires x !in keep
    ensures multiset(Filter(xs, keep)) == multiset(xs)[x := 0]
  {
    if xs != [] {
      assert xs == [xs[0]] + xs[1..];
      FilterRemoves(xs[1..], keep, x);
    }
  }

  /** Choosing performs one song and returns every other candidate. */
  lemma PerformsConserved(s: State, song: TrackId, t: State)
    requires Conserved(s) && NoDup(s.board.bucket) && Performs(s, song, t)
    ensures Conserved(t)
  {
    var candidates := s.dd.offer.value.candidates;
    FilterRemoves(candidates, (set x | x in candidates) - {song}, song);
    OnceEach(s.board.bucket, song);
    var all: multiset<TrackId> := multiset(s.board.bucket);
    var drawn: multiset<TrackId> := multiset(candidates);
    assert song in drawn && drawn[song] <= all[song];
    assert multiset(Unchosen(candidates, song)) + multiset{song} == multiset(candidates);
  }

  lemma DailyConserved(s: State, t: State)
    requires Conserved(s) && (SameBooks(s, t) || Declines(s, t) || Draws(s, t))
    ensures Conserved(t)
  {
  }

  lemma ResetConserved(s: State)
    requires Conserved(s)
    ensures Conserved(OnReset(s))
  {
    hide OnBoard, ClearScores;
  }

  lemma DealConserved(s: State, deal: set<Coord>)
    requires Conserved(s)
    ensures Conserved(OnStartGame(s, deal))
  {
    hide ValidDeal;
  }

  lemma MovesConserved(s: State, e: Event, t: State)
    requires Conserved(s) && NoDup(s.board.bucket) && Moves(s, e, t)
    ensures Conserved(t) <==> !Overwrites(s, e)
  {
    hide Conserved, Selects, SameBooks, Declines, Draws, Performs, Due, HasContestant, Counted;
    if Counted(s, e).Some? {
      SelectsConserved(s, Counted(s, e).value, t);
    } else if e.Choose? && Performs(s, e.song, t) {
      PerformsConserved(s, e.song, t);
    } else {
      DailyConserved(s, t);
    }
  }

  lemma GamesConserved(s: State, e: Event, w: World)
    requires Conserved(s) && (e.ResetToLobby? || e.StartGame?)
    ensures Conserved(Step(s, e, w)) && Counted(s, e).None?
  {
    hide Conserved, OnReset, OnStartGame;
    ResetConserved(s);
    DealConserved(s, w.deal);
  }

  /**
   * Songs are conserved by every command except exactly one kind: a selection
   * that opens an offer over an abandoned one whose songs were already drawn.
   */
  lemma ConservedStep(s: State, e: Event, w: World)
    requires Conserved(s) && NoDup(s.board.bucket)
    ensures Conserved(Step(s, e, w)) <==> !Overwrites(s, e)
  {
    hide Step, Conserved, Moves, Counted;
    if e.ResetToLobby? || e.StartGame? {
      GamesConserved(s, e, w);
    } else {
      BooksStep(s, e, w);
      MovesConserved(s, e, Step(s, e, w));
    }
  }

  lemma CuratedMoves(s: State, e: Event, t: State)
    requires Curated(s) && Moves(s, e, t)
    ensures Curated(t)
  {
    hide Due, HasContestant, Unplayed, Selected, Draws;
    if Draws(s, t) {
      CuratedDraw(s, t);
    }
  }

  lemma CuratedDraw(s: State, t: State)
    requires Curated(s) && Draws(s, t)
    ensures Curated(t)
  {
    forall x | x in t.dd.bucket || x in OnOffer(t.dd)
      ensures x in s.dd.bucket
    {
      var left: multiset<TrackId>, drawn: multiset<TrackId> := multiset(t.dd.bucket), multiset(OnOffer(t.dd));
      assert x in left || x in drawn;
      assert x in multiset(s.dd.bucket);
    }
  }

  lemma CuratedGames(s: State, e: Event, w: World)
    requires Curated(s) && (e.ResetToLobby? || e.StartGame?)
    ensures Curated(Step(s, e, w))
  {
    hide OnBoard, ClearScores, ValidDeal;
  }

  /** No command whatever brings a song of the grid into the bucket or onto an offer. */
  lemma CuratedStep(s: State, e: Event, w: World)
    requires Curated(s)
    ensures Curated(Step(s, e, w))
  {
    if e.ResetToLobby? || e.StartGame? {
      CuratedGames(s, e, w);
    } else {
      hide Step, Curated, Moves;
      BooksStep(s, e, w);
      CuratedMoves(s, e, Step(s, e, w));
    }
  }

  // ---- Orderly runs ----

  /** An offer on record is being decided, with no track loaded, or its game is over. */
  predicate OfferLive(s: State) {
    s.dd.offer.Some? ==> (s.phase == DailyDouble && s.round.track.None?) || s.phase == GameOver
  }

  /**
   * The admin keeps to the game: no reveal during a Daily Double, no reveal,
   * selection or round end outside a game, and no offer opened over a loaded track.
   */
  predicate Orderly(s: State, e: Event) {
    && (e.AdminReveal? ==> s.phase != DailyDouble)
    && (e.AdminReveal? || e.AdminSelect? || e.EndRound? ==> s.phase != Lobby && s.phase != GameOver)
    && (OpensOffer(s, e) && !e.Fire? ==> s.round.track.None?)
  }

  /** A selection in an orderly run opens its offer with no track loaded. */
  lemma SelectionClean(s: State, e: Event, w: World)
    requires Counted(s, e).Some? && OfferLive(s) && Orderly(s, e)
    ensures OfferLive(Step(s, e, w)) && s.dd.offer.None?
  {
    hide SelectCell, Unplayed, HasContestant, Due, PickAccepted;
    var c := Counted(s, e).value;
    SelectBooks(s, c, w);
    match e
    case PlayerSelect(conn, nonce, at) => PickLive(s, conn, nonce, at);
    case AdminSelect(_) =>
    case Fire(_) => CountdownClean(s, w);
    case _ =>
  }

  lemma CountdownClean(s: State, w: World)
    requires Counted(s, Fire(Countdown)).Some? && OfferLive(s)
    ensures OfferLive(Step(s, Fire(Countdown), w)) && s.dd.offer.None?
  {
    hide SelectCell, Unplayed, HasContestant, Due;
    var s2 := TransitionTo(
      s.(pending := s.pending - multiset{Countdown}, round := s.round.(track := None, cell := None),
         gate := s.gate.(pick := None)), BoardUp);
    SelectBooks(s2, Counted(s, Fire(Countdown)).value, w);
    ContestantReads(s, s2);
  }

  /** An offer being decided stays so until it is settled or its game ends. */
  lemma DecidingStays(s: State, e: Event, w: World)
    requires Deciding(s) && s.round.track.None? && !e.AdminReveal?
    ensures OfferLive(Step(s, e, w))
  {
    hide Step;
    if e.Disconnect? || e.Kick? {
      DecidingDeparts(s, e, w);
    } else if e.EndRound? || e.SkipDouble? || e.Decide? || e.Choose? {
      DecidingSettles(s, e, w);
    } else {
      DecidingWaits(s, e, w);
    }
  }

  lemma DecidingSettles(s: State, e: Event, w: World)
    requires Deciding(s) && s.round.track.None?
    requires e.EndRound? || e.SkipDouble? || e.Decide? || e.Choose?
    ensures OfferLive(Step(s, e, w))
  {
    hide SkipDaily, Declines, OnDecide, OnChoose;
    match e
    case Decide(conn, nonce, accept) => DecidingDecides(s, conn, nonce, accept, w);
    case Choose(conn, nonce, song) => DecidingChooses(s, conn, nonce, song, w);
    case _ => DecidingSkips(s, w);
  }

  lemma DecidingSkips(s: State, w: World)
    requires Deciding(s) && s.round.track.None?
    ensures OfferLive(SkipDaily(s, w))
  {
    hide Decline, Declines;
    DeclineBooks(s, w);
    DeclinesPhase(s, Decline(s, w));
  }

  lemma DecidingDecides(s: State, conn: ConnId, nonce: nat, accept: bool, w: World)
    requires Deciding(s) && s.round.track.None?
    ensures OfferLive(OnDecide(s, conn, nonce, accept, w))
  {
    hide Decline, Declines, Shuffled, FromContestant;
    DeclineBooks(s, w);
    DeclinesPhase(s, Decline(s, w));
  }

  lemma DecidingChooses(s: State, conn: ConnId, nonce: nat, song: TrackId, w: World)
    requires Deciding(s) && s.round.track.None?
    ensures OfferLive(OnChoose(s, conn, nonce, song, w))
  {
    hide Decline, Declines, Unchosen, PresentMobile, FromContestant;
    DeclineBooks(s, w);
    DeclinesPhase(s, Decline(s, w));
  }

  lemma DecidingWaits(s: State, e: Event, w: World)
    requires Deciding(s) && s.round.track.None?
    requires !e.Disconnect? && !e.Kick? && !e.EndRound? && !e.SkipDouble? && !e.Decide? && !e.Choose? && !e.AdminReveal?
    ensures var t := Step(s, e, w);
            t.dd.offer == s.dd.offer && t.round.track.None? && t.phase in {DailyDouble, GameOver}
  {
    hide OnFire, Owner, IsMobile, Resolve, AddConn, SetPlayer, SetGuessed, FinishDaily, Unplayed, ValidDeal;
    if e.Fire? {
      DecidingFires(s, e.what, w);
    }
  }

  lemma DecidingDeparts(s: State, e: Event, w: World)
    requires Deciding(s) && s.round.track.None? && (e.Disconnect? || e.Kick?)
    ensures OfferLive(Step(s, e, w))
  {
    hide DailyWithout, RemoveConn, EvaluateVotes, LeavePools;
    match e
    case Disconnect(conn) =>
      var (reg, gone) := RemoveConn(s.reg, conn);
      if gone.Some? {
        DecidingWithout(s.(reg := reg), gone.value, w);
      }
    case Kick(p, ban) =>
      if p in s.reg.players {
        DecidingWithout(if ban then s.(reg := SetPlayer(s.reg, p, s.reg.players[p].(banned := true))) else s, p, w);
      }
  }

  lemma DecidingWithout(s: State, p: PlayerId, w: World)
    requires Deciding(s) && s.round.track.None?
    ensures var r := DailyWithout(EvaluateVotes(LeavePools(s, p)), p, w);
            OfferLive(r) && r.phase != Karaoke
  {
    hide Decline, Declines, Connected;
    var t := EvaluateVotes(LeavePools(s, p));
    DeclineBooks(t, w);
    DeclinesPhase(t, Decline(t, w));
  }

  lemma DecidingFires(s: State, what: Deferred, w: World)
    requires Deciding(s) && s.round.track.None?
    ensures var t := OnFire(s, what, w);
            t.dd.offer == s.dd.offer && t.round.track.None? && t.phase == DailyDouble
  {
  }

  /** After a game only a New Game or an unguarded admin command does anything to the phase. */
  lemma OverStays(s: State, e: Event, w: World)
    requires s.phase == GameOver && !e.AdminReveal? && !e.AdminSelect? && !e.EndRound?
    ensures OfferLive(Step(s, e, w))
  {
    if e.Disconnect? || e.Kick? {
      OverDeparts(s, e, w);
    } else if e.Fire? {
      OverFires(s, e.what, w);
    } else if e.ResetToLobby? {
      OverResets(s);
    } else {
      OverQuiet(s, e, w);
    }
  }

  lemma OverDeparts(s: State, e: Event, w: World)
    requires s.phase == GameOver && (e.Disconnect? || e.Kick?)
    ensures Step(s, e, w).phase == GameOver
  {
    hide ThresholdMet, RemoveConn;
  }

  lemma OverResets(s: State)
    requires s.phase == GameOver
    ensures OnReset(s).dd.offer.None?
  {
    hide ClearScores, OnBoard;
  }

  lemma OverQuiet(s: State, e: Event, w: World)
    requires s.phase == GameOver && !e.AdminReveal? && !e.AdminSelect? && !e.EndRound?
    requires !e.Disconnect? && !e.Kick? && !e.Fire? && !e.ResetToLobby?
    ensures Step(s, e, w).phase == GameOver
  {
    hide Owner, IsMobile, Resolve, AddConn, SetPlayer, SetGuessed, ValidDeal, FinishDaily, Decline, Unplayed;
  }

  lemma OverFires(s: State, what: Deferred, w: World)
    requires s.phase == GameOver
    ensures OnFire(s, what, w).phase == GameOver
  {
  }

  lemma IdleOffer(s: State, e: Event, w: World)
    requires s.dd.offer.None? && Counted(s, e).None?
    ensures OfferLive(Step(s, e, w))
  {
    if e.ResetToLobby? || e.StartGame? {
      IdleGames(s, e, w);
    } else {
      hide Step, Counted, Selects, Moves;
      BooksStep(s, e, w);
      IdleMoves(s, e, Step(s, e, w));
    }
  }

  lemma IdleMoves(s: State, e: Event, t: State)
    requires s.dd.offer.None? && Counted(s, e).None? && Moves(s, e, t)
    ensures t.dd.offer.None?
  {
    hide Counted;
  }

  lemma IdleGames(s: State, e: Event, w: World)
    requires s.dd.offer.None? && (e.ResetToLobby? || e.StartGame?)
    ensures Step(s, e, w).dd.offer.None?
  {
    hide OnBoard, ClearScores, ValidDeal;
  }

  lemma OrderlyStep(s: State, e: Event, w: World)
    requires OfferLive(s) && Orderly(s, e)
    ensures OfferLive(Step(s, e, w)) && !Overwrites(s, e)
  {
    hide Step, HasContestant, Due, Selected, Unplayed;
    if Counted(s, e).Some? {
      SelectionClean(s, e, w);
    } else if s.dd.offer.None? {
      IdleOffer(s, e, w);
    } else if s.phase == DailyDouble {
      DecidingStays(s, e, w);
    } else {
      OverStays(s, e, w);
    }
  }

  ghost predicate OrderlyRun(s: State, run: Run)
    decreases |run|
  {
    run != [] ==> Orderly(s, run[0].0) && OrderlyRun(Step(s, run[0].0, run[0].1), run[1..])
  }

  /** A run in which no drawn offer is overwritten. */
  ghost predicate Careful(s: State, run: Run)
    decreases |run|
  {
    run != [] ==> !Overwrites(s, run[0].0) && Careful(Step(s, run[0].0, run[0].1), run[1..])
  }

  lemma {:induction false} CarefulConserves(s: State, run: Run)
    requires Conserved(s) && NoDup(s.board.bucket) && Careful(s, run)
    ensures Conserved(After(s, run))
    decreases |run|
  {
    hide Step, Conserved, Overwrites;
    if run != [] {
      ConservedStep(s, run[0].0, run[0].1);
      StepFramed(s, run[0].0, run[0].1);
      CarefulConserves(Step(s, run[0].0, run[0].1), run[1..]);
    }
  }

  lemma {:induction false} OrderlyKeeps(s: State, run: Run)
    requires OfferLive(s) && OrderlyRun(s, run)
    ensures Careful(s, run)
    decreases |run|
  {
    hide Step, OfferLive, Orderly, Overwrites;
    if run != [] {
      OrderlyStep(s, run[0].0, run[0].1);
      OrderlyKeeps(Step(s, run[0].0, run[0].1), run[1..]);
    }
  }

  lemma InitSongs(s: State)
    requires Init(s)
    ensures Conserved(s) && OfferLive(s) && Curated(s) && NoDup(s.board.bucket)
  {
  }

  /** From a fresh engine, over every run that overwrites no drawn offer, no song is lost or duplicated. */
  lemma SongsConserved(s: State, run: Run)
    requires Init(s) && Careful(s, run)
    ensures Conserved(After(s, run))
  {
    hide After, Careful, Conserved;
    InitSongs(s);
    CarefulConserves(s, run);
  }

  /** And an admin who keeps to the game overwrites none. */
  lemma OrderlyIsCareful(s: State, run: Run)
    requires Init(s) && OrderlyRun(s, run)
    ensures Careful(s, run)
  {
    hide After, Careful, OrderlyRun, OfferLive;
    InitSongs(s);
    OrderlyKeeps(s, run);
  }

  /** And in any run at all, every song drawn, offered or waiting is one of the curated ones. */
  lemma {:induction false} AlwaysCurated(s: State, run: Run)
    requires Curated(s)
    ensures Curated(After(s, run))
    decreases |run|
  {
    hide Step, Curated;
    if run != [] {
      CuratedStep(s, run[0].0, run[0].1);
      AlwaysCurated(Step(s, run[0].0, run[0].1), run[1..]);
    }
  }
}
