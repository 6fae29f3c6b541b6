/**
 * A whole karaoke phase: picking and voting are confluent, and the countdown
 * that follows starts the cell that was picked first.
 */
module KaraokePhase {
  import opened Common
  import opened Registry
  import opened EngineState
  import opened RoundSafety
  import opened DailySafety
  import opened GateTheory
  import Scoring

  /** Commands that neither override the phase nor take its picker away. */
  predicate PhaseEvent(s: State, e: Event) {
    && !e.AdminSelect? && !e.AdminReveal? && !e.EndRound? && !e.EndGame?
    && (e.Disconnect? ==> RemoveConn(s.reg, e.conn).1 != s.gate.picker)
    && (e.Kick? ==> Some(e.player) != s.gate.picker)
  }

  /** The vote half happens: the track ends, or what the command changes meets the threshold. */
  predicate VoteHalf(s: State, e: Event) {
    match e
    case TrackEnded(_) => !s.solo
    case Vote(conn, nonce) =>
      var who := Owner(s.reg, conn);
      && nonce == s.nonce && who.Some? && who.value in s.gate.pool
      && ThresholdMet(s.(gate := s.gate.(votes := s.gate.votes + {who.value})))
    case SetThreshold(pct) => ThresholdMet(s.(gate := s.gate.(pct := Half(pct))))
    case Disconnect(conn) =>
      var (reg, gone) := RemoveConn(s.reg, conn);
      gone.Some? && ThresholdMet(LeavePools(s.(reg := reg), gone.value))
    case Kick(p, _) => p in s.reg.players && ThresholdMet(LeavePools(s, p))
    case _ => false
  }

  /** The pick half happens. */
  predicate PickHalf(s: State, e: Event) {
    e.PlayerSelect? && PickAccepted(s, e.conn, e.nonce, e.at)
  }

  /** The state `t` a karaoke phase is in after a command of `s`, given the halves so far. */
  predicate Follows(s: State, e: Event, t: State) {
    var ready := s.gate.ready || VoteHalf(s, e);
    var pick := if s.gate.pick.Some? then s.gate.pick else if PickHalf(s, e) then Some(e.at) else None;
    && t.gate.picker == s.gate.picker && t.gate.pick == pick
    && if ready && pick.Some? then t.phase == Transition else t.phase == Karaoke && t.gate.ready == ready
  }

  lemma FollowsLeave(s: State, e: Event, w: World)
    requires s.phase == Karaoke && s.gate.picker.Some? && NotBoth(s) && PhaseEvent(s, e)
    requires e.Disconnect? || e.Kick?
    ensures Follows(s, e, Step(s, e, w))
  {
    hide OnDisconnect, OnKick, DailyWithout, EvaluateVotes, LeavePools, ThresholdMet, RemoveConn, Connected;
    match e
    case Disconnect(conn) =>
      DisconnectView(s, conn, w);
      var (reg, gone) := RemoveConn(s.reg, conn);
      if gone.Some? {
        LeaveView(s.(reg := reg), gone.value, w);
      }
    case Kick(p, ban) =>
      KickView(s, p, ban, w);
      if p in s.reg.players {
        var s1 := if ban then s.(reg := SetPlayer(s.reg, p, s.reg.players[p].(banned := true))) else s;
        LeaveView(s, p, w);
        LeaveView(s1, p, w);
        ThresholdReads(LeavePools(s, p), LeavePools(s1, p));
      }
  }

  lemma FollowsVotes(s: State, e: Event, w: World)
    requires s.phase == Karaoke && s.gate.picker.Some? && NotBoth(s)
    requires e.Vote? || e.SetThreshold?
    ensures Follows(s, e, Step(s, e, w))
  {
    hide EvaluateVotes, ThresholdMet, Owner;
    match e
    case SetThreshold(pct) => VotesView(s.(gate := s.gate.(pct := Half(pct))));
    case Vote(conn, _) =>
      if Owner(s.reg, conn).Some? {
        VotesView(s.(gate := s.gate.(votes := s.gate.votes + {Owner(s.reg, conn).value})));
      }
  }

  lemma FollowsPicks(s: State, e: Event, w: World)
    requires s.phase == Karaoke && s.gate.picker.Some? && NotBoth(s)
    requires e.TrackEnded? || e.PlayerSelect?
    ensures Follows(s, e, Step(s, e, w))
  {
    hide PickAccepted;
  }

  lemma FollowsRest(s: State, e: Event, w: World)
    requires s.phase == Karaoke && s.gate.picker.Some? && NotBoth(s) && PhaseEvent(s, e)
    requires !e.Vote? && !e.SetThreshold? && !e.TrackEnded? && !e.PlayerSelect? && !e.Disconnect? && !e.Kick?
    ensures Follows(s, e, Step(s, e, w))
  {
    hide OnFire, IsMobile, Connected;
    if e.Fire? {
      FireView(s, e.what, w);
    }
  }

  lemma FollowsStep(s: State, e: Event, w: World)
    requires s.phase == Karaoke && s.gate.picker.Some? && NotBoth(s) && PhaseEvent(s, e)
    ensures Follows(s, e, Step(s, e, w))
  {
    hide Follows, NotBoth, PhaseEvent, Step;
    if e.Disconnect? || e.Kick? {
      FollowsLeave(s, e, w);
    } else if e.Vote? || e.SetThreshold? {
      FollowsVotes(s, e, w);
    } else if e.TrackEnded? || e.PlayerSelect? {
      FollowsPicks(s, e, w);
    } else {
      FollowsRest(s, e, w);
    }
  }

  /**
   * Both halves on record in KARAOKE, as a reveal can bring about: they wait
   * until the vote half happens once more, and then the countdown begins.
   */
  lemma BothWait(s: State, e: Event, w: World)
    requires s.phase == Karaoke && s.gate.picker.Some? && !NotBoth(s) && PhaseEvent(s, e)
    ensures Waiting(s, e, Step(s, e, w))
  {
    hide Waiting, PhaseEvent, Step;
    if e.Disconnect? || e.Kick? {
      BothLeave(s, e, w);
    } else if e.Vote? || e.SetThreshold? || e.TrackEnded? || e.PlayerSelect? {
      BothVotes(s, e, w);
    } else {
      BothRest(s, e, w);
    }
  }

  predicate Waiting(s: State, e: Event, t: State) {
    && t.gate.picker == s.gate.picker && t.gate.pick == s.gate.pick && t.gate.ready
    && t.phase == if VoteHalf(s, e) then Transition else Karaoke
  }

  lemma BothLeave(s: State, e: Event, w: World)
    requires s.phase == Karaoke && s.gate.picker.Some? && !NotBoth(s) && PhaseEvent(s, e)
    requires e.Disconnect? || e.Kick?
    ensures Waiting(s, e, Step(s, e, w))
  {
    hide OnDisconnect, OnKick, DailyWithout, EvaluateVotes, LeavePools, ThresholdMet, RemoveConn, Connected;
    match e
    case Disconnect(conn) =>
      DisconnectView(s, conn, w);
      var (reg, gone) := RemoveConn(s.reg, conn);
      if gone.Some? {
        LeaveView(s.(reg := reg), gone.value, w);
      }
    case Kick(p, ban) =>
      KickView(s, p, ban, w);
      if p in s.reg.players {
        var s1 := if ban then s.(reg := SetPlayer(s.reg, p, s.reg.players[p].(banned := true))) else s;
        LeaveView(s, p, w);
        LeaveView(s1, p, w);
        ThresholdReads(LeavePools(s, p), LeavePools(s1, p));
      }
  }

  lemma BothVotes(s: State, e: Event, w: World)
    requires s.phase == Karaoke && s.gate.picker.Some? && !NotBoth(s)
    requires e.Vote? || e.SetThreshold? || e.TrackEnded? || e.PlayerSelect?
    ensures Waiting(s, e, Step(s, e, w))
  {
    hide EvaluateVotes, ThresholdMet, Owner, PickAccepted;
    match e
    case SetThreshold(pct) => VotesView(s.(gate := s.gate.(pct := Half(pct))));
    case Vote(conn, _) =>
      if Owner(s.reg, conn).Some? {
        VotesView(s.(gate := s.gate.(votes := s.gate.votes + {Owner(s.reg, conn).value})));
      }
    case _ =>
  }

  lemma BothRest(s: State, e: Event, w: World)
    requires s.phase == Karaoke && s.gate.picker.Some? && !NotBoth(s) && PhaseEvent(s, e)
    requires !e.Vote? && !e.SetThreshold? && !e.TrackEnded? && !e.PlayerSelect? && !e.Disconnect? && !e.Kick?
    ensures Waiting(s, e, Step(s, e, w))
  {
    hide OnFire, IsMobile, Connected;
    if e.Fire? {
      FireView(s, e.what, w);
    }
  }

  /** A run of phase commands, each taken while KARAOKE still waits. */
  ghost predicate PhaseRun(s: State, run: Run)
    decreases |run|
  {
    run != [] ==>
      && s.phase == Karaoke && PhaseEvent(s, run[0].0)
      && PhaseRun(Step(s, run[0].0, run[0].1), run[1..])
  }

  ghost predicate VoteHappens(s: State, run: Run)
    decreases |run|
  {
    run != [] && (VoteHalf(s, run[0].0) || VoteHappens(Step(s, run[0].0, run[0].1), run[1..]))
  }

  ghost function FirstPick(s: State, run: Run): Option<Coord>
    decreases |run|
  {
    if run == [] then None
    else if PickHalf(s, run[0].0) then Some(run[0].0.at)
    else FirstPick(Step(s, run[0].0, run[0].1), run[1..])
  }

  lemma {:induction false} HalvesAdd(s: State, run: Run)
    requires s.phase == Karaoke && s.gate.picker.Some? && NotBoth(s) && PhaseRun(s, run)
    ensures var fired := s.gate.ready || VoteHappens(s, run);
            var pick := if s.gate.pick.Some? then s.gate.pick else FirstPick(s, run);
            var t := After(s, run);
            if fired && pick.Some? then t.phase == Transition && t.gate.pick == pick && t.gate.picker == s.gate.picker
            else t.phase == Karaoke
    decreases |run|
  {
    hide Step, PickHalf, VoteHalf, PhaseEvent;
    if run != [] {
      var t := Step(s, run[0].0, run[0].1);
      FollowsStep(s, run[0].0, run[0].1);
      if t.phase == Karaoke {
        HalvesAdd(t, run[1..]);
      } else {
        assert run[1..] == [];
      }
    }
  }

  /** A phase that begins with nothing on record. */
  predicate ClearEntry(s: State) {
    s.phase == Karaoke && s.gate.picker.Some? && s.gate.pick.None? && !s.gate.ready
  }

  /**
   * Confluence of the gate: over any run of votes, picks, departures, threshold
   * changes and track ends, in any order, the phase is left exactly when both
   * halves have happened, and the pick on record is the first one made.
   */
  lemma GateIsConfluent(s: State, run: Run)
    requires ClearEntry(s) && PhaseRun(s, run)
    ensures var t := After(s, run);
            && (t.phase != Karaoke <==> VoteHappens(s, run) && FirstPick(s, run).Some?)
            && (t.phase != Karaoke ==> t.phase == Transition && t.gate.pick == FirstPick(s, run))
  {
    HalvesAdd(s, run);
  }

  /** Every round that ends by itself opens its karaoke phase with a clear gate. */
  lemma RoundsEnterClear(s: State, e: Event, w: World)
    requires Inv(s) && PickerBacked(s) && InPlay(s)
    requires e.Grade? || e.Fire?
    ensures var t := Step(s, e, w);
            t.phase == Karaoke ==> t.gate.pick.None? && !t.gate.ready && t.gate.votes == {}
  {
    hide OnGrade, OnFire, KeysFresh, BuzzInv, PointsInv, DailyInv;
    match e
    case Grade(v) => GradeView(s, v, w);
    case Fire(what) => FireView(s, what, w);
  }

  /** What a selection that plays leaves: a round on one of the cell's tracks, or an offer for the cell. */
  predicate Started(s: State, c: Coord, t: State) {
    && t.round.cell == Some(c)
    && (t.phase == RoundActive || t.phase == DailyDouble)
    && (t.phase == RoundActive ==> t.round.track.Some? && t.round.track.value in Unplayed(s.board, s.played, c))
    && (t.phase == DailyDouble ==> t.dd.offer.Some? && t.dd.offer.value.cell == c)
  }

  /** The countdown starts the picked cell if it is still playable, and otherwise hands over to the admin. */
  lemma CountdownStartsPick(s: State, w: World)
    requires s.phase == Transition
    ensures var t := FireCountdown(s, w);
            if s.gate.pick.Some? && Unplayed(s.board, s.played, s.gate.pick.value) != []
            then Started(s, s.gate.pick.value, t)
            else t.phase == BoardUp && t.gate.picker.None? && !t.gate.ready && t.gate.pick.None?
  {
    hide SelectCell, Unplayed;
    if s.gate.pick.Some? && Unplayed(s.board, s.played, s.gate.pick.value) != [] {
      var c := s.gate.pick.value;
      var s1 := TransitionTo(
        s.(round := s.round.(track := None, cell := None), gate := s.gate.(pick := None)), BoardUp);
      SelectStarts(s1, c, w);
    }
  }

  lemma OfferStarts(s: State, c: Coord, w: World)
    requires Unplayed(s.board, s.played, c) != []
    ensures Started(s, c, BeginOffer(s, c, w))
  {
    hide Unplayed, Filter, PresentMobile, Present;
  }

  lemma SelectStarts(s: State, c: Coord, w: World)
    requires !Busy(s) && Unplayed(s.board, s.played, c) != []
    ensures Started(s, c, SelectCell(s, c, w))
  {
    hide BeginOffer, Unplayed, Visits, Fires;
    OfferStarts(Visit(DropPick(s), c), c, w);
  }

  // ---- The stale flag ----

  /** A won vote with no pick, then End Game, New Game, Start Game and a selection: the flag is still up. */
  lemma StaleReadySurvives(s: State, c: Coord, w: World)
    requires s.phase == Karaoke && s.gate.ready && s.gate.pick.None? && !s.solo
    requires var lobby := After(s, [(EndGame, w), (ResetToLobby, w)]); ValidDeal(lobby, w.deal)
    requires var up := After(s, [(EndGame, w), (ResetToLobby, w), (StartGame, w)]);
             Unplayed(up.board, up.played, c) != [] && !Fires(Visit(up, c), c)
    ensures var t := After(s, [(EndGame, w), (ResetToLobby, w), (StartGame, w), (AdminSelect(c), w)]);
            t.phase == RoundActive && t.gate.ready && t.gate.picker.None? && t.gate.pick.None?
  {
    hide Unplayed, ValidDeal, Fires, OnBoard, ClearScores, Step;
    var s1 := Step(s, EndGame, w);
    var s2 := Step(s1, ResetToLobby, w);
    var s3 := Step(s2, StartGame, w);
    RunTwo(s, EndGame, ResetToLobby, w);
    RunThree(s, EndGame, ResetToLobby, StartGame, w);
    RunFour(s, EndGame, ResetToLobby, StartGame, AdminSelect(c), w);
    NewGameKeepsReady(s, w);
    SelectKeepsReady(s3, c, w);
  }

  lemma RunTwo(s: State, a: Event, b: Event, w: World)
    ensures After(s, [(a, w), (b, w)]) == Step(Step(s, a, w), b, w)
  {
    hide Step;
    var t := Step(s, a, w);
    assert [(a, w), (b, w)][1..] == [(b, w)] && [(b, w)][1..] == [];
    assert After(t, [(b, w)]) == After(Step(t, b, w), []);
  }

  lemma RunThree(s: State, a: Event, b: Event, c: Event, w: World)
    ensures After(s, [(a, w), (b, w), (c, w)]) == Step(Step(Step(s, a, w), b, w), c, w)
  {
    hide Step;
    assert [(a, w), (b, w), (c, w)][1..] == [(b, w), (c, w)];
    RunTwo(Step(s, a, w), b, c, w);
  }

  lemma RunFour(s: State, a: Event, b: Event, c: Event, d: Event, w: World)
    ensures After(s, [(a, w), (b, w), (c, w), (d, w)]) == Step(Step(Step(Step(s, a, w), b, w), c, w), d, w)
  {
    hide Step;
    assert [(a, w), (b, w), (c, w), (d, w)][1..] == [(b, w), (c, w), (d, w)];
    RunThree(Step(s, a, w), b, c, d, w);
  }

  lemma NewGameKeepsReady(s: State, w: World)
    requires s.phase == Karaoke && !s.solo
    requires ValidDeal(Step(Step(s, EndGame, w), ResetToLobby, w), w.deal)
    ensures var t := Step(Step(Step(s, EndGame, w), ResetToLobby, w), StartGame, w);
            t.phase == BoardUp && t.gate.ready == s.gate.ready && t.gate.picker.None? && t.gate.pick == s.gate.pick
  {
    hide ValidDeal, OnBoard, ClearScores;
  }

  lemma SelectKeepsReady(s: State, c: Coord, w: World)
    requires s.phase == BoardUp && s.gate.picker.None? && s.gate.pick.None?
    requires Unplayed(s.board, s.played, c) != [] && !Fires(Visit(s, c), c)
    ensures var t := Step(s, AdminSelect(c), w);
            t.phase == RoundActive && t.gate == s.gate
  {
    hide Unplayed, Fires, Visits;
  }

  /** With the flag up, the winner's pick alone leaves KARAOKE: nobody has voted. */
  lemma StaleReadySkipsVote(s: State, conn: ConnId, c: Coord, w: World)
    requires Inv(s) && s.phase == Adjudicate && s.gate.ready
    requires Owner(s.reg, conn) == s.round.winner && !s.reg.players[s.round.winner.value].banned
    requires var t := Step(s, Grade(Correct), w); Unplayed(t.board, t.played, c) != []
    ensures var t := Step(s, Grade(Correct), w);
            && t.phase == Karaoke && t.gate.votes == {}
            && Step(t, PlayerSelect(conn, t.nonce, c), w).phase == Transition
  {
    hide Unplayed, OnGrade, SelectCell, KeysFresh, PointsInv, DailyInv;
    var t := Step(s, Grade(Correct), w);
    GradeView(s, Correct, w);
    CorrectOpens(s, w);
    assert t.gate.pick.None? && t.gate.ready;
    assert PickAccepted(t, conn, t.nonce, c);
  }

  lemma CorrectOpens(s: State, w: World)
    requires Inv(s) && s.phase == Adjudicate
    ensures var t := OnGrade(s, Correct, w);
            && t.phase == Karaoke && t.gate.picker == s.round.winner && t.reg.conns == s.reg.conns
            && t.reg.players.Keys == s.reg.players.Keys
            && s.round.winner.value in s.reg.players
            && t.reg.players[s.round.winner.value].banned == s.reg.players[s.round.winner.value].banned
  {
    hide RoundPool, Voters, KeysFresh, GateIdle, PointsInv, DailyInv, Scoring.PoolPoints;
  }
}
