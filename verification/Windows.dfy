/**
 * Buzz windows over whole runs: the contenders on record while a window is open
 * are the window of every buzz accepted since it opened, whatever other commands
 * came in between, so the timer that closes it judges all of them.
 */
module Windows {
  import opened Common
  import opened Registry
  import opened BuzzWindow
  import opened EngineState
  import opened RoundSafety
  import opened DailySafety
  import Scoring

  /** A buzz that the engine takes: in time, on the current nonce, by a player who may still guess. */
  predicate Accepted(s: State, e: Event) {
    && e.Buzz? && s.phase == RoundActive && !s.round.locked && e.nonce == s.nonce
    && var who := Owner(s.reg, e.conn);
       who.Some? && !s.reg.players[who.value].banned && !s.reg.players[who.value].guessed
  }

  function AsContender(s: State, e: Event): Contender
    requires Accepted(s, e)
  {
    Contender(Owner(s.reg, e.conn).value, e.conn, e.arrival)
  }

  /** The buzzes taken since the latest window opened, given those taken before `run`. */
  ghost function Taken(s: State, run: Run, heard: seq<Contender>): seq<Contender>
    decreases |run|
  {
    if run == [] then heard
    else Taken(Step(s, run[0].0, run[0].1), run[1..], Hears(s, run[0].0, heard))
  }

  function Hears(s: State, e: Event, heard: seq<Contender>): seq<Contender> {
    if !Accepted(s, e) then heard
    else if s.round.windowOpen then heard + [AsContender(s, e)]
    else [AsContender(s, e)]
  }

  /** An open window holds what it has heard. */
  predicate Gathered(s: State, heard: seq<Contender>) {
    s.round.windowOpen ==> s.round.contenders == Window(heard)
  }

  /** A window that is open afterwards was open before, with the same contenders. */
  predicate Kept(s: State, t: State) {
    t.round.windowOpen ==> s.round.windowOpen && t.round.contenders == s.round.contenders
  }

  // ---- Commands other than an accepted buzz ----

  lemma StartKept(s: State, c: Coord, w: World)
    ensures Kept(s, StartCellNormally(s, c, w)) && Kept(s, BeginOffer(s, c, w))
  {
    hide Unplayed, Filter, PresentMobile, Present;
  }

  lemma SelectKept(s: State, c: Coord, w: World)
    ensures Kept(s, SelectCell(s, c, w))
  {
    hide BeginOffer, Unplayed, Fires, Visits;
    StartKept(Visit(DropPick(s), c), c, w);
  }

  lemma DeclineKept(s: State, w: World)
    ensures Kept(s, Decline(s, w))
  {
    hide StartCellNormally, Rearm;
    if s.phase == DailyDouble && s.dd.offer.Some? {
      var o := s.dd.offer.value;
      var s1 := Unflag(s, o.cell);
      var s2 := s1.(dd := s1.dd.(bucket := s1.dd.bucket + o.candidates, offer := None));
      RearmFrame(s2, o.cell, w.cell);
      StartKept(Rearm(s2, o.cell, w.cell), o.cell, w);
    }
  }

  lemma FinishKept(s: State)
    ensures Kept(s, FinishDaily(s)) && Kept(s, OnEndGame(s))
  {
    hide Scoring.Payout;
  }

  lemma EndRoundKept(s: State, w: World)
    ensures Kept(s, SkipDaily(s, w)) && Kept(s, EndRoundNow(s, w))
  {
    hide Decline, FinishDaily;
    DeclineKept(s, w);
    FinishKept(s);
  }

  lemma CloseRoundKept(s: State, now: int)
    ensures Kept(s, CloseRound(s, now))
  {
    hide Voters;
  }

  lemma CorrectKept(s: State, p: PlayerId, now: int)
    requires p in s.reg.players
    ensures Kept(s, GradeCorrect(s, p, now))
  {
    hide CloseRound, RoundPool, Scoring.PoolPoints;
    var (ceiling, floor) := RoundPool(s.round);
    var s1 := AwardRound(s, p, Scoring.PoolPoints(ceiling, floor, s.round.pausedMs));
    CloseRoundKept(ConsumeTrack(s1.(gate := s1.gate.(picker := Some(p)))), now);
  }

  lemma PartialKept(s: State, p: PlayerId, now: int)
    requires p in s.reg.players
    ensures Kept(s, GradePartial(s, p, now))
  {
    hide CloseRound, PoolAfterPartial;
    var s1 := AwardRound(s, p, Scoring.PARTIAL);
    CloseRoundKept(ConsumeTrack(s1.(round := s1.round.(partial := Some(PoolAfterPartial(s.round))))), now);
  }

  lemma GradeKept(s: State, v: Verdict, w: World)
    ensures Kept(s, OnGrade(s, v, w))
  {
    hide EndRoundNow, GradeCorrect, GradePartial;
    EndRoundKept(s, w);
    if s.round.winner.Some? && s.round.winner.value in s.reg.players {
      var p := s.round.winner.value;
      var s1 := s.(reg := SetPlayer(s.reg, p, s.reg.players[p].(guessed := true)));
      var s2 := if s.round.track.Some?
                then s1.(ledger := s1.ledger.(graded := s1.ledger.graded + {(s.round.track.value, p)})) else s1;
      CorrectKept(s2, p, w.now);
      PartialKept(s2, p, w.now);
    }
  }

  lemma ResolveKept(s: State, key: Key, w: World)
    ensures Kept(s, ResolveWindow(s, key, w))
    ensures key == s.round.key && s.phase == RoundActive ==> !ResolveWindow(s, key, w).round.windowOpen
  {
    hide Winner, Eligible;
  }

  lemma LeaveKept(s: State, p: PlayerId, w: World)
    ensures Kept(s, DailyWithout(EvaluateVotes(LeavePools(s, p)), p, w))
  {
    hide Decline, EvaluateVotes;
    VotesKept(LeavePools(s, p));
    DeclineKept(EvaluateVotes(LeavePools(s, p)), w);
  }

  lemma VotesKept(s: State)
    ensures Kept(s, EvaluateVotes(s))
  {
    hide ThresholdMet;
  }

  lemma DepartKept(s: State, e: Event, w: World)
    requires e.Disconnect? || e.Kick?
    ensures Kept(s, Step(s, e, w))
  {
    hide DailyWithout, EvaluateVotes, LeavePools, RemoveConn;
    match e
    case Disconnect(conn) =>
      var (reg, gone) := RemoveConn(s.reg, conn);
      if gone.Some? {
        LeaveKept(s.(reg := reg), gone.value, w);
      }
    case Kick(p, ban) =>
      if p in s.reg.players {
        LeaveKept(if ban then s.(reg := SetPlayer(s.reg, p, s.reg.players[p].(banned := true))) else s, p, w);
      }
  }

  lemma FireKept(s: State, e: Event, w: World)
    requires e.Fire?
    ensures Kept(s, Step(s, e, w))
  {
    hide ResolveWindow, SelectCell, FinishDaily, CloseRound, Unplayed;
    var s1 := s.(pending := s.pending - multiset{e.what});
    match e.what
    case BuzzTimer(key) => ResolveKept(s1, key, w);
    case Countdown =>
      if s.gate.pick.Some? {
        SelectKept(TransitionTo(
          s1.(round := s1.round.(track := None, cell := None), gate := s1.gate.(pick := None)), BoardUp),
          s.gate.pick.value, w);
      }
    case Fade(key) => FinishKept(s1);
    case AutoKaraoke(key) => CloseRoundKept(ConsumeTrack(s1), w.now);
  }

  lemma ClosingKept(s: State, e: Event, w: World)
    requires e.Grade? || e.AdminReveal? || e.EndRound? || e.EndGame? || e.SkipDouble? || e.TrackEnded?
             || e.ResetToLobby?
    ensures Kept(s, Step(s, e, w))
  {
    hide OnGrade, EndRoundNow, CloseRound, FinishDaily, SkipDaily, OnEndGame, ClearScores, OnBoard;
    match e
    case Grade(v) => GradeKept(s, v, w);
    case AdminReveal => CloseRoundKept(ConsumeTrack(s), w.now);
    case EndRound => EndRoundKept(s, w);
    case EndGame => FinishKept(s);
    case SkipDouble => EndRoundKept(s, w);
    case TrackEnded(_) => EndRoundKept(s, w); FinishKept(s);
    case ResetToLobby =>
  }

  lemma DoubleKept(s: State, e: Event, w: World)
    requires e.Decide? || e.Choose?
    ensures Kept(s, Step(s, e, w))
  {
    hide Decline, Owner, Shuffled, Unchosen, PresentMobile;
    DeclineKept(s, w);
  }

  lemma SelectionKept(s: State, e: Event, w: World)
    requires e.AdminSelect? || e.PlayerSelect?
    ensures Kept(s, Step(s, e, w))
  {
    hide SelectCell, PickAccepted;
    SelectKept(s, e.at, w);
  }

  predicate KeepsRound(e: Event) {
    e.Connect? || e.Hello? || e.Heartbeat? || e.AdminAward? || e.StartGame? || e.SetVolume? || e.Rate? || e.EndDouble?
    || e.LetterLockout? || e.LettersDone? || e.FadeRamp? || e.SoloPlay? || e.SoloStop?
  }

  lemma QuietKept(s: State, e: Event, w: World)
    requires KeepsRound(e)
    ensures Kept(s, Step(s, e, w))
  {
    hide ValidDeal, IsMobile, Owner, Resolve, AddConn, SetPlayer, SetGuessed;
  }

  lemma VotingKept(s: State, e: Event, w: World)
    requires e.Vote? || e.SetThreshold? || (e.Buzz? && !Accepted(s, e))
    ensures Kept(s, Step(s, e, w))
  {
    hide ThresholdMet, Owner, ResolveWindow;
  }

  /** Nothing but an accepted buzz adds to a window or opens one. */
  lemma OthersKeep(s: State, e: Event, w: World)
    requires !Accepted(s, e)
    ensures Kept(s, Step(s, e, w))
  {
    hide Step, Kept, Accepted;
    if KeepsRound(e) {
      QuietKept(s, e, w);
    } else if e.Disconnect? || e.Kick? {
      DepartKept(s, e, w);
    } else if e.AdminSelect? || e.PlayerSelect? {
      SelectionKept(s, e, w);
    } else if e.Decide? || e.Choose? {
      DoubleKept(s, e, w);
    } else if e.Fire? {
      FireKept(s, e, w);
    } else if e.Vote? || e.SetThreshold? || e.Buzz? {
      VotingKept(s, e, w);
    } else {
      ClosingKept(s, e, w);
    }
  }

  // ---- Runs ----

  /** An accepted buzz joins the window, or opens one, unless the window is resolved at once. */
  lemma BuzzGathers(s: State, e: Event, w: World, heard: seq<Contender>)
    requires Accepted(s, e) && Gathered(s, heard)
    ensures Gathered(Step(s, e, w), Hears(s, e, heard))
  {
    hide ResolveWindow, Enqueue;
    var c := AsContender(s, e);
    assert [c][..0] == [] && Window([c]) == Enqueue([], c);
    assert (heard + [c])[..|heard|] == heard && Window(heard + [c]) == Enqueue(Window(heard), c);
    assert Enqueue([], c) == [c] by { EnqueueFirst(c); }
    var s1 := s.(round := s.round.(windowOpen := true, contenders := [c]));
    ResolveKept(s1, s1.round.key, w);
  }

  lemma EnqueueFirst(c: Contender)
    ensures Enqueue([], c) == [c]
  {
  }

  lemma {:induction false} RunGathers(s: State, run: Run, heard: seq<Contender>)
    requires Gathered(s, heard)
    ensures Gathered(After(s, run), Taken(s, run, heard))
    decreases |run|
  {
    hide Step, Gathered, Accepted, Window;
    if run != [] {
      var (e, w) := run[0];
      GatherStep(s, e, w, heard);
      RunGathers(Step(s, e, w), run[1..], Hears(s, e, heard));
    }
  }

  /** Every command keeps an open window equal to what it has heard. */
  lemma GatherStep(s: State, e: Event, w: World, heard: seq<Contender>)
    requires Gathered(s, heard)
    ensures Gathered(Step(s, e, w), Hears(s, e, heard))
  {
    hide Step, Window;
    if Accepted(s, e) {
      BuzzGathers(s, e, w, heard);
    } else {
      OthersKeep(s, e, w);
    }
  }

  /**
   * The timer of an open window is in the bag, and whenever it fires it judges
   * every buzz the engine took since the window opened: if any of their players
   * is still eligible, one of them wins with a buzz that no eligible player's
   * buzz preceded; otherwise the round goes on without a winner.
   */
  lemma TimerHearsAll(s: State, run: Run, w: World)
    requires Init(s)
    requires var t := After(s, run); t.phase == RoundActive && t.round.windowOpen
    ensures var t := After(s, run);
            var heard := Taken(s, run, []);
            var timer := BuzzTimer(t.round.key);
            var u := Step(t, Fire(timer), w);
            && t.pending[timer] == 1
            && !u.round.windowOpen
            && if exists b :: b in heard && b.player in Eligible(t.reg) then
                 && u.phase == Adjudicate && u.round.winner.Some?
                 && exists b :: Wins(b, heard, Eligible(t.reg)) && b.player == u.round.winner.value
               else u.phase == RoundActive && u.round.winner.None?
  {
    hide After, Taken, Init, DailyInv, KeysFresh, GateIdle, PointsInv, Eligible, Step, Wins;
    InitInv(s);
    InitGathered(s);
    Reachable(s, run);
    RunGathers(s, run, []);
    TimerJudges(After(s, run), Taken(s, run, []), w);
  }

  lemma InitGathered(s: State)
    requires Init(s)
    ensures Gathered(s, [])
  {
  }

  lemma TimerJudges(s: State, heard: seq<Contender>, w: World)
    requires BuzzInv(s) && s.phase == RoundActive && s.round.windowOpen && Gathered(s, heard)
    ensures var timer := BuzzTimer(s.round.key);
            var u := Step(s, Fire(timer), w);
            && s.pending[timer] == 1
            && !u.round.windowOpen
            && if exists b :: b in heard && b.player in Eligible(s.reg) then
                 && u.phase == Adjudicate && u.round.winner.Some?
                 && exists b :: Wins(b, heard, Eligible(s.reg)) && b.player == u.round.winner.value
               else u.phase == RoundActive && u.round.winner.None?
  {
    hide Eligible, Winner, Window, Step, BuzzInv, Wins;
    TimerResolves(s, w);
    HeardWinner(heard, w.order, Eligible(s.reg));
  }

  lemma HeardWinner(heard: seq<Contender>, shuffle: seq<Contender>, eligible: set<PlayerId>)
    ensures var x := Winner(Window(heard), shuffle, eligible);
            && (x.Some? ==> Wins(x.value, heard, eligible) && x.value in heard && x.value.player in eligible)
            && (x.None? ==> forall b :: b in heard ==> b.player !in eligible)
  {
    hide Winner, Window;
    WindowRefinesMap(heard);
    WinnerIsEarliest(Window(heard), shuffle, eligible);
    var x := Winner(Window(heard), shuffle, eligible);
    if x.Some? {
      EarliestOverall(heard, x.value, eligible);
    } else {
      forall b | b in heard
        ensures b.player !in eligible
      {
        var v :| v in Window(heard) && v.player == b.player;
      }
    }
  }

  /** `b` was taken, its player may win, and no buzz of such a player arrived before it. */
  predicate Wins(b: Contender, heard: seq<Contender>, eligible: set<PlayerId>) {
    && b in heard && b.player in eligible
    && forall d :: d in heard && d.player in eligible ==> b.arrival <= d.arrival
  }

  lemma TimerResolves(s: State, w: World)
    requires BuzzInv(s) && s.phase == RoundActive && s.round.windowOpen
    ensures var timer := BuzzTimer(s.round.key);
            var u := Step(s, Fire(timer), w);
            var x := Winner(s.round.contenders, w.order, Eligible(s.reg));
            && s.pending[timer] == 1 && !u.round.windowOpen
            && (x.Some? ==> u.phase == Adjudicate && u.round.winner == Some(x.value.player))
            && (x.None? ==> u.phase == RoundActive && u.round.winner.None?)
  {
    hide Winner, Eligible;
    assert BuzzTimer(s.round.key) in s.pending;
  }
}
