/** What the invariants mean for a whole run from a fresh engine, and for the single commands that settle things. */
module Outcomes {
  import opened Common
  import opened Registry
  import opened BuzzWindow
  import opened EngineState
  import opened RoundSafety
  import opened DailySafety
  import Scoring

  // ---- Rounds ----

  /** In every reachable state: who holds the lock, and that an open window has its one timer. */
  lemma BuzzProtocol(s: State, run: Run)
    requires Init(s)
    ensures var t := After(s, run);
            && (t.phase == Adjudicate ==>
                  t.round.winner.Some? && t.round.key in t.locks && t.locks[t.round.key] == t.round.winner.value)
            && (t.phase == RoundActive ==>
                  && t.round.winner.None? && t.round.key !in t.locks
                  && t.pending[BuzzTimer(t.round.key)] == if t.round.windowOpen then 1 else 0)
            && t.phase != Locked
  {
    hide After, KeysFresh, GateIdle, PointsInv, DailyInv;
    InitInv(s);
    Reachable(s, run);
  }

  /**
   * A timer of the open round settles it: with an eligible contender the
   * earliest one wins, otherwise the window just closes.
   */
  lemma TimerSettles(s: State, w: World)
    requires RoundInv(s) && s.phase == RoundActive && s.round.windowOpen
    ensures BuzzTimer(s.round.key) in s.pending
    ensures var t := Step(s, Fire(BuzzTimer(s.round.key)), w);
            && !t.round.windowOpen && t.round.contenders == []
            && if exists c :: c in s.round.contenders && c.player in Eligible(s.reg) then
                 && t.phase == Adjudicate && t.round.winner.Some?
                 && t.locks == s.locks[s.round.key := t.round.winner.value]
                 && exists c :: FirstAmong(c, s.round.contenders, Eligible(s.reg)) && c.player == t.round.winner.value
               else
                 t.phase == RoundActive && t.locks == s.locks && t.round.winner.None? && t.nonce == s.nonce
  {
    hide Winner, Eligible, GateIdle, PointsInv, FirstAmong;
    WinnerIsEarliest(s.round.contenders, w.order, Eligible(s.reg));
    FirstIsEligible(s, w);
  }

  lemma FirstIsEligible(s: State, w: World)
    ensures var x := Winner(s.round.contenders, w.order, Eligible(s.reg));
            x.Some? ==> x.value in s.round.contenders && x.value.player in Eligible(s.reg)
  {
    hide Winner, Eligible;
    WinnerIsEarliest(s.round.contenders, w.order, Eligible(s.reg));
  }

  /** A timer of any other round, or one that finds its round no longer active, only leaves the bag. */
  lemma StaleTimerIdle(s: State, key: Key, w: World)
    requires BuzzTimer(key) in s.pending && (key != s.round.key || s.phase != RoundActive)
    ensures Step(s, Fire(BuzzTimer(key)), w) == s.(pending := s.pending - multiset{BuzzTimer(key)})
  {
    hide Winner, Eligible;
  }

  /**
   * Whatever was graded and however long it took, a finished round has paid
   * nothing, 50, or 100 up to the row's maximum.
   */
  lemma RoundPays(s: State, run: Run)
    requires Init(s)
    ensures var t := After(s, run);
            var paid := t.ledger.roundPoints;
            && 0 <= paid <= Scoring.MaxPointsForRow(t.ledger.roundRow)
            && (!InPlay(t) ==> paid == 0 || paid == 50 || 100 <= paid)
            && (InPlay(t) ==> paid == if t.round.partial.Some? then 50 else 0)
  {
    hide After, KeysFresh, BuzzInv, GateIdle, DailyInv;
    InitInv(s);
    Reachable(s, run);
  }

  /** `t` has credited `points` of the round to `p` and moved no other score. */
  predicate Credited(s: State, t: State, p: PlayerId, points: int) {
    && p in s.reg.players && t.ledger.roundPoints == s.ledger.roundPoints + points
    && t.reg.players.Keys == s.reg.players.Keys
    && t.reg.players[p].score == s.reg.players[p].score + points
    && forall q :: q in s.reg.players && q != p ==> t.reg.players[q].score == s.reg.players[q].score
  }

  lemma CorrectCredits(s: State, p: PlayerId, now: int)
    requires p in s.reg.players
    ensures exists points :: Credited(s, GradeCorrect(s, p, now), p, points)
  {
    hide RoundPool, Voters, Scoring.PoolPoints;
    var (ceiling, floor) := RoundPool(s.round);
    assert Credited(s, GradeCorrect(s, p, now), p, Scoring.PoolPoints(ceiling, floor, s.round.pausedMs));
  }

  lemma OtherCredits(s: State, p: PlayerId, now: int)
    requires p in s.reg.players
    ensures Credited(s, GradePartial(s, p, now), p, 50) && Credited(s, GradeIncorrect(s, now), p, 0)
  {
    hide PoolAfterPartial, Voters;
  }

  /** What a grade adds to the round's points is what it adds to the winner's score, and nobody else's score moves. */
  lemma GradeCredits(s: State, v: Verdict, w: World)
    requires RoundInv(s) && s.phase == Adjudicate
    ensures var t, p := Step(s, Grade(v), w), s.round.winner.value;
            && (exists points :: Credited(s, t, p, points))
            && (v == Partial ==> Credited(s, t, p, 50))
            && (v == Incorrect || v == Unknown ==> Credited(s, t, p, 0))
  {
    hide GradeCorrect, GradePartial, GradeIncorrect, KeysFresh, GateIdle, PointsInv;
    var p := s.round.winner.value;
    var s1 := s.(reg := SetPlayer(s.reg, p, s.reg.players[p].(guessed := true)));
    var s2 := s1.(ledger := s1.ledger.(graded := s1.ledger.graded + {(s.round.track.value, p)}));
    CorrectCredits(s2, p, w.now);
    OtherCredits(s2, p, w.now);
    var t := Step(s, Grade(v), w);
    assert forall points :: Credited(s2, t, p, points) ==> Credited(s, t, p, points);
    if v == Unknown {
      assert Credited(s, t, p, 0);
    }
  }

  // ---- Daily Double performances ----

  /** However track ends, skips, fades and departures interleave, no performance is ever paid twice. */
  lemma PaidAtMostOnce(s: State, run: Run, k: Key)
    requires Init(s)
    ensures After(s, run).ledger.paid[k] <= 1
  {
    hide After, RoundInv, FadeInv, PoolInv;
    InitInv(s);
    Reachable(s, run);
  }

  /**
   * A performance that leaves the stage is paid exactly when its performer is
   * still on record and no reveal cut it off.
   */
  lemma LeavingPays(s: State, e: Event, w: World)
    requires Inv(s) && OnStage(s)
    ensures var t := Step(s, e, w);
            && (!OnStage(t) ==>
                  t.ledger.paid == if s.gate.picker.Some? && !e.AdminReveal? then s.ledger.paid + multiset{s.round.key}
                                   else s.ledger.paid)
            && (OnStage(t) ==> t.ledger.paid == s.ledger.paid && t.round == s.round)
  {
    if e.Disconnect? || e.Kick? {
      hide Step;
      DepartStays(s, e, w);
    } else if e.Fire? {
      hide OnFire, Inv;
      FireStage(s, e.what, w);
    } else if e.EndRound? || e.EndGame? || e.SkipDouble? || e.TrackEnded? || e.AdminReveal? {
      hide Step, Inv, OnStage;
      EndStage(s, e, w);
    } else {
      hide Step, Inv;
      OtherStage(s, e, w);
    }
  }

  /** The commands that end a performance. */
  lemma EndStage(s: State, e: Event, w: World)
    requires Inv(s) && OnStage(s)
    requires e.EndRound? || e.EndGame? || e.SkipDouble? || e.TrackEnded? || e.AdminReveal?
    ensures var t := Step(s, e, w);
            && (!OnStage(t) ==>
                  t.ledger.paid == if s.gate.picker.Some? && !e.AdminReveal? then s.ledger.paid + multiset{s.round.key}
                                   else s.ledger.paid)
            && (OnStage(t) ==> t.ledger.paid == s.ledger.paid && t.round == s.round)
  {
    hide FinishDaily, CloseRound, FadeInv, PoolInv, RoundInv;
    FinishPays(s);
    if e.AdminReveal? {
      RevealStage(s, w.now);
    }
  }

  /** Every other command leaves it on stage. */
  lemma OtherStage(s: State, e: Event, w: World)
    requires OnStage(s)
    requires !e.Disconnect? && !e.Kick? && !e.Fire? && !e.EndRound? && !e.EndGame? && !e.SkipDouble? && !e.TrackEnded?
    requires !e.AdminReveal?
    ensures SameStage(s, Step(s, e, w))
  {
    hide Owner, IsMobile, Resolve, AddConn, SetPlayer, SetGuessed, ValidDeal, ThresholdMet, SelectCell, OnGrade, OnBuzz,
         PickAccepted;
    match e
    case AdminSelect(at) => BusyStage(s, at, w);
    case PlayerSelect(conn, nonce, at) => PickPhase(s, conn, nonce, at);
    case Grade(v) => StageIdle(s, v, 0, 0, 0, 0, w);
    case Buzz(conn, nonce, arrival) => StageIdle(s, Unknown, conn, nonce, arrival, 0, w);
    case _ =>
  }

  lemma FinishPays(s: State)
    requires Inv(s) && OnStage(s)
    ensures var t := FinishDaily(s);
            && !OnStage(t)
            && t.ledger.paid == if s.gate.picker.Some? then s.ledger.paid + multiset{s.round.key} else s.ledger.paid
  {
    hide Scoring.Payout, FadeInv, PoolInv, RoundInv;
  }

  lemma RevealStage(s: State, now: int)
    ensures RevealNow(s, now).phase == Karaoke && RevealNow(s, now).ledger.paid == s.ledger.paid
  {
    hide Voters;
  }

  lemma BusyStage(s: State, at: Coord, w: World)
    requires s.phase == DailyDouble
    ensures SelectCell(s, at, w) == s
  {
  }

  lemma StageIdle(s: State, v: Verdict, conn: ConnId, nonce: nat, arrival: int, key: Key, w: World)
    requires s.phase == DailyDouble
    ensures OnGrade(s, v, w) == s && OnBuzz(s, conn, nonce, arrival, w) == s && ResolveWindow(s, key, w) == s
    ensures FireCountdown(s, w) == s && FireAutoKaraoke(s, key, w.now) == s
  {
  }

  /** A departure leaves the performance on stage: at most it starts the fade that will end it. */
  lemma DepartStays(s: State, e: Event, w: World)
    requires OnStage(s) && (e.Disconnect? || e.Kick?)
    ensures SameStage(s, Step(s, e, w))
  {
    hide RemoveConn, DailyWithout, LeavePools, EvaluateVotes;
    match e
    case Disconnect(conn) =>
      var (reg, gone) := RemoveConn(s.reg, conn);
      if gone.Some? {
        LeaveStage(s.(reg := reg), gone.value, w);
      }
    case Kick(p, ban) =>
      if p in s.reg.players {
        LeaveStage(if ban then s.(reg := SetPlayer(s.reg, p, s.reg.players[p].(banned := true))) else s, p, w);
      }
  }

  predicate SameStage(s: State, t: State) {
    t.phase == s.phase && t.dd.offer == s.dd.offer && t.ledger == s.ledger && t.round == s.round
  }

  lemma LeaveStage(s: State, p: PlayerId, w: World)
    requires OnStage(s)
    ensures SameStage(s, DailyWithout(EvaluateVotes(LeavePools(s, p)), p, w))
  {
    hide Decline;
  }

  lemma FireStage(s: State, what: Deferred, w: World)
    requires Inv(s) && OnStage(s)
    ensures var t := OnFire(s, what, w);
            && (!OnStage(t) ==>
                  && what == Fade(s.round.key)
                  && t.ledger.paid == if s.gate.picker.Some? then s.ledger.paid + multiset{s.round.key}
                                      else s.ledger.paid)
            && (OnStage(t) ==> t.ledger.paid == s.ledger.paid && t.round == s.round)
  {
    hide FinishDaily, ResolveWindow, FireCountdown, FireAutoKaraoke, Inv;
    if what in s.pending {
      var s1 := s.(pending := s.pending - multiset{what});
      if what.Fade? {
        FinishPays(s);
        FinishFrame(s, s1.pending);
      } else {
        StageIdle(s1, Unknown, 0, 0, 0, if what.Countdown? then 0 else what.key, w);
      }
    }
  }

  /** A fade only ever ends the performance it was started for; a new performance has none in flight. */
  lemma FadesOwnPerformance(s: State, e: Event, w: World)
    requires Inv(s)
    ensures OnStage(s) && e.Fire? && !OnStage(Step(s, e, w)) ==> e.what == Fade(s.round.key)
    ensures var t := Step(s, e, w);
            e.Choose? && t.ledger.performances > s.ledger.performances ==>
              OnStage(t) && t.round.key == s.nextKey && Fade(t.round.key) !in t.pending && t.dd.fading != t.round.key
  {
    hide OnFire, Decline, Unchosen, PresentMobile, BuzzInv, GateIdle, PointsInv, PayInv, PoolInv;
    if OnStage(s) && e.Fire? {
      FireStage(s, e.what, w);
    }
    if e.Choose? {
      ChooseStage(s, e.conn, e.nonce, e.song, w);
    }
  }

  lemma ChooseStage(s: State, conn: ConnId, nonce: nat, song: TrackId, w: World)
    requires KeysFresh(s) && FadeInv(s)
    ensures var t := OnChoose(s, conn, nonce, song, w);
            t.ledger.performances > s.ledger.performances ==>
              OnStage(t) && t.round.key == s.nextKey && Fade(t.round.key) !in t.pending && t.dd.fading != t.round.key
  {
    hide Decline, Unchosen, PresentMobile, Connected;
    DeclinePerforms(s, w);
  }

  lemma DeclinePerforms(s: State, w: World)
    ensures Decline(s, w).ledger.performances == s.ledger.performances
  {
    hide Unplayed, Filter, Heirs, Visits;
  }

  /**
   * In every reachable state the raters are online members of the pool, and a
   * quiet volume writer has the last word right.
   */
  lemma RatersAndVolume(s: State, run: Run)
    requires Init(s)
    ensures var t := After(s, run);
            && t.dd.ratings.Keys <= t.dd.ratingPool
            && (forall p :: p in t.dd.ratingPool || p in t.gate.pool ==> Online(t.reg, p))
            && ((forall k :: Fade(k) !in t.pending) ==> t.volume.sent == t.volume.pct)
  {
    hide After, RoundInv, PayInv;
    InitInv(s);
    Reachable(s, run);
  }

  /** Active voters are exactly the pool: nobody is counted who has left. */
  lemma ActiveIsPool(s: State)
    requires Inv(s)
    ensures ActiveVoters(s) == s.gate.pool && CountedVotes(s) == s.gate.votes * s.gate.pool
  {
    hide RoundInv, PayInv, FadeInv;
  }

  /** needVotes, read back as percentages: strictly more than `pct` percent below 100, everybody at 100. */
  lemma ThresholdMeans(have: nat, active: nat, pct: nat)
    requires 0 < active && have <= active && pct <= 100
    ensures have >= NeedVotes(active, pct) <==> if pct == 100 then have == active else 100 * have > pct * active
  {
    if pct < 100 {
      var q := active * pct / 100;
      assert q * 100 <= active * pct < q * 100 + 100;
      assert active * pct < active * 100;
      assert q < active;
    }
  }
}
