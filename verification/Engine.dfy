/**
 * The engine as the program holds it: one object whose fields the handlers
 * update in place, one command at a time. Each method is proved to take the
 * state exactly where the corresponding function of EngineState does, so every
 * theorem about `Step` and `After` is a theorem about this object.
 */
module EngineObject {
  import opened Common
  import opened Registry
  import opened BuzzWindow
  import opened EngineState
  import E = EngineState
  import opened Attendees
  import opened RoundSafety
  import opened DailySafety
  import Scoring

  class Engine {
    const board: Board
    const immediate: bool
    const reg: Registrar

    var phase: Phase
    var nonce: nat
    var nextKey: Key
    var played: set<TrackId>
    var locks: map<Key, PlayerId>
    var pending: multiset<Deferred>
    var solo: bool

    var round: Round
    var gate: Gate
    var dd: Doubles
    var volume: Volume

    ghost var ledger: Ledger

    ghost function View(): State
      reads this, reg
    {
      State(phase, nonce, nextKey, board, immediate, played, reg.Value(), round, locks, gate, dd, volume, solo, pending,
            ledger)
    }

    constructor (board: Board, immediate: bool, threshold: nat)
      requires WellFormed(board)
      ensures Init(View()) && fresh(reg)
      ensures View().board == board && View().immediate == immediate && View().gate.pct == threshold
    {
      this.board, this.immediate := board, immediate;
      reg := new Registrar();
      phase, nonce, nextKey, played, locks, pending, solo := Lobby, 0, 1, {}, map[], multiset{}, false;
      round := NO_ROUND;
      gate := Gate(None, None, false, {}, {}, threshold);
      dd := Doubles(map[], map[], None, board.bucket, {}, map[], None, 0);
      volume := Volume(100, 100);
      ledger := Ledger(0, 0, 0, {}, 0, [], multiset{});
    }

    // ---- Small steps ----

    method TransitionTo(next: Phase)
      modifies this`phase, this`nonce
      ensures View() == E.TransitionTo(old(View()), next)
    {
      phase := next;
      nonce := nonce + 1;
    }

    method ConsumeTrack()
      modifies this`played
      ensures View() == E.ConsumeTrack(old(View()))
    {
      if round.track.Some? {
        played := played + {round.track.value};
      }
    }

    method Release()
      modifies this`locks
      ensures View() == E.Release(old(View()))
    {
      locks := locks - {round.key};
    }

    method Award(p: PlayerId, points: int)
      requires p in reg.players
      modifies this`dd, reg
      ensures View() == E.Award(old(View()), p, points)
    {
      var player := reg.players[p];
      reg.Update(p, player.(score := player.score + points));
      if points > 0 {
        dd := dd.(lastScorer := Some(p));
      }
    }

    method ResumeAudio(now: int)
      modifies this`round
      ensures View() == E.ResumeAudio(old(View()), now)
    {
      round := round.(startMs := now - round.pausedMs);
    }

    method ClearGate()
      modifies this`gate
      ensures View() == E.ClearGate(old(View()))
    {
      gate := gate.(picker := None, pick := None, ready := false);
    }

    method TracksLeft(c: Coord) returns (left: seq<TrackId>)
      ensures left == Unplayed(board, played, c)
    {
      left := [];
      if c in board.tracks {
        left := Collect(board.tracks[c], board.playable - played);
      }
    }

    // ---- Rounds ----

    method StartTrack(c: Coord, t: TrackId, now: int)
      modifies this, reg
      ensures View() == E.StartTrack(old(View()), c, t, now)
    {
      round := round.(cell := Some(c), track := Some(t), row := c.row, startMs := now, pausedMs := 0);
      round := round.(winner := None, partial := None, windowOpen := false, contenders := [], locked := false);
      round := round.(key := nextKey);
      nextKey := nextKey + 1;
      reg.MarkGuessed(reg.players.Keys, false);
      ledger := ledger.(rounds := ledger.rounds + 1, roundRow := c.row, roundPoints := 0);
      TransitionTo(RoundActive);
    }

    method StartCellNormally(c: Coord, w: World)
      modifies this, reg
      ensures View() == E.StartCellNormally(old(View()), c, w)
    {
      hide E.StartTrack, Unplayed;
      var left := TracksLeft(c);
      if left == [] {
        round := round.(cell := None);
        TransitionTo(BoardUp);
      } else {
        StartTrack(c, Pick(left, w.track), w.now);
      }
    }

    method SelectCell(c: Coord, w: World)
      modifies this, reg
      ensures View() == E.SelectCell(old(View()), c, w)
    {
      hide E.StartTrack, E.BeginOffer, Unplayed;
      if phase in {RoundActive, Locked, Adjudicate, DailyDouble} {
        return;
      }
      if gate.picker.Some? || gate.pick.Some? {
        ClearGate();
      }
      var left := TracksLeft(c);
      if left == [] {
        return;
      }
      dd := dd.(visits := dd.visits[c := (if c in dd.visits then dd.visits[c] else 0) + 1]);
      if c in dd.trigger && dd.trigger[c] > 0 && dd.visits[c] == dd.trigger[c] {
        BeginOffer(c, w);
      } else {
        StartTrack(c, Pick(left, w.track), w.now);
      }
    }

    method EndRound(w: World)
      requires Scoring.ValidRatings(dd.ratings)
      modifies this, reg
      ensures View() == E.EndRoundNow(old(View()), w)
    {
      hide E.SkipDaily;
      if phase == DailyDouble {
        SkipDaily(w);
        return;
      }
      ConsumeTrack();
      Release();
      round := round.(track := None, cell := None, winner := None, windowOpen := false, contenders := [],
                             partial := None);
      TransitionTo(BoardUp);
    }

    // ---- Buzzing and grading ----

    method Buzz(conn: ConnId, n: nat, arrival: int, w: World)
      modifies this, reg
      ensures View() == E.OnBuzz(old(View()), conn, n, arrival, w)
    {
      hide E.ResolveWindow, Enqueue;
      var who := reg.PlayerFor(conn);
      if phase != RoundActive || round.locked || n != nonce || who.None? {
        return;
      }
      var p := who.value;
      if reg.players[p].banned || reg.players[p].guessed {
        return;
      }
      if round.windowOpen {
        var queued := AddContender(round.contenders, Contender(p, conn, arrival));
        round := round.(contenders := queued);
        return;
      }
      round := round.(windowOpen := true, contenders := [Contender(p, conn, arrival)]);
      if immediate {
        ResolveWindow(round.key, w);
      } else {
        pending := pending + multiset{BuzzTimer(round.key)};
      }
    }

    method ResolveWindow(key: Key, w: World)
      modifies this, reg
      ensures View() == E.ResolveWindow(old(View()), key, w)
    {
      hide Eligible, Ranking, FirstEligible;
      if phase != RoundActive || round.key != key || !round.windowOpen {
        return;
      }
      var order := Ranking(round.contenders, w.order);
      round := round.(windowOpen := false, contenders := []);
      var i := FindEligible(order, Eligible(reg.Value()));
      if i == |order| {
        return;
      }
      var p := order[i].player;
      if key !in locks {
        locks := locks[key := p];
        AwardBuzz(p, w.now);
      }
    }

    method AwardBuzz(p: PlayerId, now: int)
      modifies this
      ensures View() == E.AwardBuzz(old(View()), p, now)
    {
      round := round.(winner := Some(p));
      round := round.(pausedMs := now - round.startMs);
      TransitionTo(Locked);
      TransitionTo(Adjudicate);
    }

    method Grade(v: Verdict, w: World)
      requires Scoring.ValidRatings(dd.ratings)
      modifies this, reg
      ensures View() == E.OnGrade(old(View()), v, w)
    {
      hide E.EndRoundNow, E.GradeCorrect, E.GradePartial, E.GradeIncorrect;
      if phase != Adjudicate {
        return;
      }
      if round.winner.None? || round.winner.value !in reg.players {
        EndRound(w);
        return;
      }
      var p := round.winner.value;
      reg.Update(p, reg.players[p].(guessed := true));
      if v != Unknown && round.track.Some? {
        ledger := ledger.(graded := ledger.graded + {(round.track.value, p)});
      }
      match v
      case Correct => GradeCorrect(p, w.now);
      case Partial => GradePartial(p, w.now);
      case Incorrect => GradeIncorrect(w.now);
      case Unknown =>
    }

    method RoundPool() returns (ceiling: int, floor: int)
      ensures (ceiling, floor) == E.RoundPool(round)
    {
      ceiling, floor := Scoring.MaxPointsForRow(round.row), Scoring.BASE;
      if round.partial.Some? {
        ceiling, floor := round.partial.value, Scoring.BASE - Scoring.PARTIAL;
      }
      if floor > ceiling {
        floor := ceiling;
      }
    }

    method AwardRound(p: PlayerId, points: int)
      requires p in reg.players
      modifies this`dd, this`ledger, reg
      ensures View() == E.AwardRound(old(View()), p, points)
    {
      hide E.Award;
      Award(p, points);
      ledger := ledger.(roundPoints := ledger.roundPoints + points);
    }

    method GradeCorrect(p: PlayerId, now: int)
      requires p in reg.players
      modifies this, reg
      ensures View() == E.GradeCorrect(old(View()), p, now)
    {
      hide E.CloseRound, E.RoundPool, E.AwardRound, Scoring.PoolPoints;
      var ceiling, floor := RoundPool();
      AwardRound(p, Scoring.PoolPoints(ceiling, floor, round.pausedMs));
      gate := gate.(picker := Some(p));
      ConsumeTrack();
      CloseRound(now);
    }

    method GradePartial(p: PlayerId, now: int)
      requires p in reg.players
      modifies this, reg
      ensures View() == E.GradePartial(old(View()), p, now)
    {
      hide E.CloseRound, E.AwardRound, Scoring.Leftover;
      AwardRound(p, Scoring.PARTIAL);
      if round.partial.Some? {
        var left := round.partial.value - Scoring.PARTIAL;
        round := round.(partial := Some(if left < 0 then 0 else left));
        ConsumeTrack();
        CloseRound(now);
        return;
      }
      round := round.(partial := Some(Scoring.Leftover(round.row, round.pausedMs)));
      round := round.(startMs := now - 5001);
      round := round.(winner := None);
      Release();
      TransitionTo(RoundActive);
    }

    method GradeIncorrect(now: int)
      modifies this
      ensures View() == E.GradeIncorrect(old(View()), now)
    {
      ResumeAudio(now);
      round := round.(winner := None);
      Release();
      TransitionTo(RoundActive);
    }

    method CloseRound(now: int)
      modifies this
      ensures View() == E.CloseRound(old(View()), now)
    {
      hide Voters;
      round := round.(winner := None);
      Release();
      EnterKaraoke(now);
    }

    method LockOut(key: Key)
      modifies this, reg
      ensures View() == E.LockOut(old(View()), key)
    {
      if phase != RoundActive || round.key != key {
        return;
      }
      round := round.(locked := true);
      var mobile := reg.EveryPhone();
      reg.MarkGuessed(mobile, true);
    }

    // ---- Karaoke ----

    method EnterKaraoke(now: int)
      modifies this
      ensures View() == E.EnterKaraoke(old(View()), now)
    {
      hide Voters, PresentMobile;
      ResumeAudio(now);
      TransitionTo(Karaoke);
      var voters := reg.Phones(true);
      gate := gate.(votes := {}, pool := voters);
    }

    method Reveal(now: int)
      modifies this
      ensures View() == E.RevealNow(old(View()), now)
    {
      hide E.CloseRound;
      ConsumeTrack();
      CloseRound(now);
    }

    method BeginTransition()
      modifies this`pending, this`phase, this`nonce
      ensures View() == E.BeginTransition(old(View()))
    {
      TransitionTo(Transition);
      pending := pending + multiset{Countdown};
    }

    method ConditionMet()
      modifies this
      ensures View() == E.ConditionMet(old(View()))
    {
      if gate.picker.None? || gate.pick.Some? {
        BeginTransition();
      } else {
        gate := gate.(ready := true);
      }
    }

    /** Counts the voters still here and the votes of those still in the pool, and compares. */
    method EvaluateVotes()
      modifies this
      ensures View() == E.EvaluateVotes(old(View()))
    {
      hide NeedVotes, E.ConditionMet, Connected;
      if phase != Karaoke {
        return;
      }
      var active := reg.CountOnline(gate.pool);
      var have := reg.CountOnline(gate.votes * gate.pool);
      assert active == |ActiveVoters(View())|;
      assert CountedVotes(View()) == set p | p in gate.votes * gate.pool && Online(reg.Value(), p);
      if active > 0 && have >= NeedVotes(active, gate.pct) {
        ConditionMet();
      }
    }

    method Vote(conn: ConnId, n: nat)
      modifies this
      ensures View() == E.OnVote(old(View()), conn, n)
    {
      hide E.EvaluateVotes;
      var who := reg.PlayerFor(conn);
      if phase != Karaoke || n != nonce || who.None? || who.value !in gate.pool {
        return;
      }
      gate := gate.(votes := gate.votes + {who.value});
      EvaluateVotes();
    }

    method PlayerSelect(conn: ConnId, n: nat, at: Coord, w: World)
      modifies this, reg
      ensures View() == E.OnPlayerSelect(old(View()), conn, n, at, w)
    {
      hide E.SelectCell, Unplayed;
      var who := reg.PlayerFor(conn);
      if phase !in {Karaoke, BoardUp} || n != nonce || who.None? || reg.players[who.value].banned
         || gate.picker != who {
        return;
      }
      var left := TracksLeft(at);
      if left == [] {
        return;
      }
      if phase == BoardUp {
        SelectCell(at, w);
      } else if gate.pick.None? {
        gate := gate.(pick := Some(at));
        if gate.ready {
          BeginTransition();
        }
      }
    }

    method FireCountdown(w: World)
      modifies this, reg
      ensures View() == E.FireCountdown(old(View()), w)
    {
      hide E.SelectCell, Unplayed;
      if phase != Transition {
        return;
      }
      TransitionTo(BoardUp);
      var chosen := gate.pick;
      round := round.(track := None, cell := None);
      gate := gate.(pick := None);
      if chosen.Some? {
        var left := TracksLeft(chosen.value);
        if left != [] {
          SelectCell(chosen.value, w);
          return;
        }
      }
      gate := gate.(picker := None, ready := false);
    }

    // ---- Daily Double ----

    method BeginOffer(c: Coord, w: World)
      modifies this, reg
      ensures View() == E.BeginOffer(old(View()), c, w)
    {
      hide E.StartCellNormally, PresentMobile, Filter, Present;
      if dd.lastScorer.Some? && Present(reg.Value(), dd.lastScorer.value) {
        OpenOffer(c, dd.lastScorer.value);
        return;
      }
      var phones := reg.Phones(false);
      var standIns := Collect(reg.roster, phones);
      if standIns == [] {
        dd := dd.(trigger := dd.trigger - {c});
        StartCellNormally(c, w);
      } else {
        OpenOffer(c, Pick(standIns, w.player));
      }
    }

    method OpenOffer(c: Coord, contestant: PlayerId)
      modifies this
      ensures View() == E.OpenOffer(old(View()), c, contestant)
    {
      round := round.(cell := Some(c));
      dd := dd.(offer := Some(Offer(c, contestant, [])));
      TransitionTo(DailyDouble);
    }

    /** Re-arms one other live, unflagged cell for its very next visit, if there is one. */
    method Rearm(declined: Coord, die: nat)
      modifies this`dd
      ensures View() == E.Rearm(old(View()), declined, die)
    {
      hide Unplayed;
      var heirs := [];
      for i := 0 to |board.grid|
        invariant heirs == Filter(board.grid[..i], Heirs(View(), declined))
        invariant unchanged(this)
      {
        var c := board.grid[i];
        assert board.grid[..i + 1] == board.grid[..i] + [c];
        FilterSnoc(board.grid[..i], c, Heirs(View(), declined));
        var left := TracksLeft(c);
        if c in board.tracks && c != declined && c !in dd.trigger && left != [] {
          heirs := heirs + [c];
        }
      }
      assert board.grid[..|board.grid|] == board.grid;
      if heirs != [] {
        var next := Pick(heirs, die);
        dd := dd.(trigger := dd.trigger[next := (if next in dd.visits then dd.visits[next] else 0) + 1]);
      }
    }

    method Decline(w: World)
      modifies this, reg
      ensures View() == E.Decline(old(View()), w)
    {
      hide E.Rearm, E.StartCellNormally;
      if phase != DailyDouble || dd.offer.None? {
        return;
      }
      var o := dd.offer.value;
      dd := dd.(trigger := dd.trigger - {o.cell});
      dd := dd.(bucket := dd.bucket + o.candidates);
      dd := dd.(offer := None);
      Rearm(o.cell, w.cell);
      if o.cell in board.tracks {
        StartCellNormally(o.cell, w);
      } else {
        round := round.(cell := None);
        TransitionTo(BoardUp);
      }
    }

    method Decide(conn: ConnId, n: nat, accept: bool, w: World)
      modifies this, reg
      ensures View() == E.OnDecide(old(View()), conn, n, accept, w)
    {
      hide E.Decline, Shuffled;
      var who := reg.PlayerFor(conn);
      if phase != DailyDouble || dd.offer.None? || n != nonce || who != Some(dd.offer.value.contestant) {
        return;
      }
      if !accept {
        Decline(w);
      } else if dd.offer.value.candidates == [] {
        if dd.bucket == [] {
          Decline(w);
        } else {
          dd := dd.(bucket := Shuffled(dd.bucket, w.songs));
          var drawn := if |dd.bucket| < 5 then |dd.bucket| else 5;
          dd := dd.(offer := Some(dd.offer.value.(candidates := dd.bucket[..drawn])));
          dd := dd.(bucket := dd.bucket[drawn..]);
        }
      }
    }

    method Choose(conn: ConnId, n: nat, song: TrackId, w: World)
      modifies this, reg
      ensures View() == E.OnChoose(old(View()), conn, n, song, w)
    {
      hide E.StartPerformance;
      var who := reg.PlayerFor(conn);
      if phase != DailyDouble || dd.offer.None? || n != nonce || who != Some(dd.offer.value.contestant) {
        return;
      }
      if song in dd.offer.value.candidates {
        StartPerformance(who.value, song, w);
      }
    }

    method ReturnUnused(candidates: seq<TrackId>, song: TrackId) returns (unchosen: seq<TrackId>)
      ensures unchosen == Unchosen(candidates, song)
    {
      unchosen := Collect(candidates, (set t | t in candidates) - {song});
    }

    method StartPerformance(p: PlayerId, song: TrackId, w: World)
      requires dd.offer.Some?
      modifies this, reg
      ensures View() == E.StartPerformance(old(View()), p, song, w)
    {
      hide E.Decline, PresentMobile, Unchosen;
      if dd.offer.value.cell in board.tracks {
        TakeStage(p, song, w);
      } else {
        Decline(w);
      }
    }

    method TakeStage(p: PlayerId, song: TrackId, w: World)
      requires dd.offer.Some? && dd.offer.value.cell in board.tracks
      modifies this
      ensures View() == E.StartPerformance(old(View()), p, song, w)
    {
      hide E.Decline, PresentMobile, Unchosen, Connected;
      var o := dd.offer.value;
      var unchosen := ReturnUnused(o.candidates, song);
      var phones := reg.Phones(false);
      round := round.(cell := Some(o.cell), track := Some(song), row := o.cell.row, startMs := w.now, key := nextKey,
                      partial := None);
      nextKey := nextKey + 1;
      gate := gate.(picker := Some(p));
      dd := dd.(bucket := dd.bucket + unchosen, offer := None, ratingPool := phones - {p}, ratings := map[]);
      ledger := ledger.(performances := ledger.performances + 1, performed := ledger.performed + [song]);
    }

    method Rate(conn: ConnId, n: nat, stars: int)
      modifies this`dd
      ensures View() == E.OnRate(old(View()), conn, n, stars)
    {
      var who := reg.PlayerFor(conn);
      if phase != DailyDouble || n != nonce || who.None? || who.value !in dd.ratingPool || stars < 1 || stars > 5 {
        return;
      }
      dd := dd.(ratings := dd.ratings[who.value := stars]);
    }

    method CheckComplete()
      modifies this
      ensures View() == E.CheckComplete(old(View()))
    {
      hide E.FadeOut;
      if phase == DailyDouble && round.track.Some? && dd.ratingPool != {} && |dd.ratings| >= |dd.ratingPool| {
        FadeOut();
      }
    }

    method FadeOut()
      modifies this
      ensures View() == E.FadeOut(old(View()))
    {
      if phase != DailyDouble || round.track.None? || (dd.fading != 0 && dd.fading == round.key) {
        return;
      }
      dd := dd.(fading := round.key);
      pending := pending + multiset{Fade(round.key)};
    }

    /** The payout sums the ratings in a loop; see Scoring.SumRatings. */
    method FinishDaily()
      requires Scoring.ValidRatings(dd.ratings)
      modifies this, reg
      ensures View() == E.FinishDaily(old(View()))
    {
      hide Scoring.StarSum, Scoring.MaxPointsForRow;
      if gate.picker.Some? && gate.picker.value in reg.players {
        var sum := Scoring.SumRatings(dd.ratings);
        var points := Scoring.MaxPointsForRow(round.row) * Scoring.CrowdQuarters(sum, |dd.ratings|) / 4;
        Award(gate.picker.value, points);
        ledger := ledger.(paid := ledger.paid + multiset{round.key});
      } else {
        gate := gate.(picker := None);
      }
      round := round.(track := None, cell := None);
      dd := dd.(ratingPool := {}, ratings := map[]);
      TransitionTo(BoardUp);
    }

    method SkipDaily(w: World)
      requires Scoring.ValidRatings(dd.ratings)
      modifies this, reg
      ensures View() == E.SkipDaily(old(View()), w)
    {
      hide E.FinishDaily, E.Decline;
      if phase != DailyDouble {
        return;
      }
      if round.track.Some? {
        FinishDaily();
      } else if dd.offer.Some? {
        Decline(w);
      }
    }

    method RampStep(key: Key, level: int)
      modifies this`volume
      ensures View() == E.RampStep(old(View()), key, level)
    {
      if Fade(key) in pending {
        volume := volume.(sent := level);
      }
    }

    method FireFade(key: Key)
      requires Scoring.ValidRatings(dd.ratings)
      modifies this, reg
      ensures View() == E.FireFade(old(View()), key)
    {
      hide E.FinishDaily;
      if round.key == key && phase == DailyDouble && round.track.Some? {
        FinishDaily();
      }
      volume := volume.(sent := volume.pct);
      if dd.fading == key {
        dd := dd.(fading := 0);
      }
    }

    method SetVolume(level: int)
      modifies this`volume
      ensures View() == E.OnSetVolume(old(View()), level)
    {
      var v := level;
      if v < 0 {
        v := 0;
      }
      if v > 100 {
        v := 100;
      }
      volume := Volume(v, v);
    }

    // ---- People ----

    method Hello(conn: ConnId, role: Role, fp: Option<nat>)
      modifies reg
      ensures View() == E.OnHello(old(View()), conn, role, fp)
    {
      var p := reg.Bind(conn, role, fp);
      if !reg.players[p].banned && role == Mobile {
        reg.Update(p, reg.players[p].(active := true));
      }
    }

    method Heartbeat(conn: ConnId)
      modifies reg
      ensures View() == E.OnHeartbeat(old(View()), conn)
    {
      var who := reg.PlayerFor(conn);
      if who.Some? {
        var phone := reg.Mobile(who.value);
        if phone {
          reg.Update(who.value, reg.players[who.value].(active := true));
        }
      }
    }

    method AdminAward(p: PlayerId, delta: int)
      modifies reg
      ensures View() == E.OnAdminAward(old(View()), p, delta)
    {
      var d := delta;
      if d < -1000 {
        d := -1000;
      }
      if d > 1000 {
        d := 1000;
      }
      if p in reg.players {
        var score := reg.players[p].score + d;
        if score < 0 {
          score := 0;
        }
        reg.Update(p, reg.players[p].(score := score));
      }
    }

    method LeavePools(p: PlayerId)
      modifies this, reg
      ensures View() == E.LeavePools(old(View()), p)
    {
      gate := gate.(pool := gate.pool - {p});
      dd := dd.(ratingPool := dd.ratingPool - {p});
      dd := dd.(ratings := dd.ratings - {p});
      if p in reg.players {
        reg.Update(p, reg.players[p].(active := false));
      }
    }

    method DailyWithout(p: PlayerId, w: World)
      modifies this, reg
      ensures View() == E.DailyWithout(old(View()), p, w)
    {
      hide E.Decline, E.CheckComplete;
      if phase == DailyDouble {
        if dd.offer.Some? && dd.offer.value.contestant == p {
          Decline(w);
        } else {
          CheckComplete();
        }
      }
    }

    method Disconnect(conn: ConnId, w: World)
      modifies this, reg
      ensures View() == E.OnDisconnect(old(View()), conn, w)
    {
      hide E.LeavePools, E.EvaluateVotes, E.DailyWithout, RemoveConn;
      var gone := reg.Remove(conn);
      if gone.None? {
        return;
      }
      var p := gone.value;
      LeavePools(p);
      EvaluateVotes();
      DailyWithout(p, w);
      if gate.picker == Some(p) {
        var wasReady := gate.ready;
        ClearGate();
        if wasReady && phase == Karaoke {
          BeginTransition();
        }
      }
    }

    method Kick(p: PlayerId, ban: bool, w: World)
      modifies this, reg
      ensures View() == E.OnKick(old(View()), p, ban, w)
    {
      hide E.LeavePools, E.EvaluateVotes, E.DailyWithout;
      if p !in reg.players {
        return;
      }
      if ban {
        reg.Update(p, reg.players[p].(banned := true));
      }
      LeavePools(p);
      EvaluateVotes();
      DailyWithout(p, w);
      if gate.picker == Some(p) {
        ClearGate();
      }
    }

    // ---- Games ----

    method SetThreshold(percent: int)
      modifies this
      ensures View() == E.OnSetThreshold(old(View()), percent)
    {
      hide E.EvaluateVotes;
      gate := gate.(pct := if percent < 50 then 50 else if percent > 100 then 100 else percent);
      EvaluateVotes();
    }

    /** The deal is one of DailyDoubleDeal.AssignDailyDoubles. */
    method StartGame(deal: set<Coord>)
      modifies this
      ensures View() == E.OnStartGame(old(View()), deal)
    {
      hide Unplayed;
      var dealable := set c | c in board.tracks && |Unplayed(board, played, c)| >= 2;
      assert dealable == Dealable(View());
      var wanted := if board.doubles < |dealable| then board.doubles else |dealable|;
      if solo || phase != Lobby || !(deal <= dealable) || |deal| != wanted || !Balanced(deal, dealable, board) {
        return;
      }
      dd := dd.(visits := map[]);
      dd := dd.(trigger := map c | c in deal :: 2);
      TransitionTo(BoardUp);
    }

    /** Puts every track of the board back into play, cell by cell. */
    method Unplay()
      modifies this`played
      ensures View() == old(View()).(played := set t | t in old(played) && !OnBoard(board, t))
    {
      var todo := board.tracks.Keys;
      while todo != {}
        invariant todo <= board.tracks.Keys
        invariant forall t :: t in played <==>
            t in old(played) && !exists c :: c in board.tracks && c !in todo && t in board.tracks[c]
        decreases todo
      {
        var c :| c in todo;
        played := played - (set t | t in board.tracks[c]);
        todo := todo - {c};
      }
      assert played == set t | t in old(played) && !OnBoard(board, t);
    }

    method ClearRound()
      modifies this`round, this`gate, this`dd
      ensures round == NO_ROUND.(partial := old(round.partial), locked := old(round.locked))
      ensures gate == old(gate).(picker := None, pool := {}, votes := {})
      ensures dd == old(dd).(ratingPool := {}, ratings := map[], lastScorer := None, visits := map[], offer := None,
                             bucket := board.bucket)
    {
      round := round.(key := 0, track := None, cell := None, row := 0, startMs := 0, pausedMs := 0, winner := None,
                      windowOpen := false, contenders := []);
      gate := gate.(picker := None, pool := {}, votes := {});
      dd := dd.(ratingPool := {}, ratings := map[], lastScorer := None, visits := map[], offer := None,
                bucket := board.bucket);
    }

    method Reset()
      modifies this, reg
      ensures View() == E.OnReset(old(View()))
    {
      hide E.ClearScores, OnBoard;
      if phase != GameOver {
        return;
      }
      ClearRound();
      reg.ResetScores();
      Unplay();
      ledger := ledger.(rounds := 0, roundPoints := 0, graded := {}, performances := 0, performed := []);
      TransitionTo(Lobby);
    }

    method EndGame()
      requires Scoring.ValidRatings(dd.ratings)
      modifies this, reg
      ensures View() == E.OnEndGame(old(View()))
    {
      hide E.FinishDaily;
      if phase == DailyDouble && round.track.Some? {
        FinishDaily();
      }
      TransitionTo(GameOver);
    }

    method TrackEnded(queueOver: bool, w: World)
      requires Scoring.ValidRatings(dd.ratings)
      modifies this, reg
      ensures View() == E.OnTrackEnded(old(View()), queueOver, w)
    {
      hide E.FinishDaily, E.EndRoundNow, E.ConditionMet;
      if solo {
        solo := !queueOver;
        return;
      }
      match phase
      case Karaoke => ConditionMet();
      case RoundActive => EndRound(w);
      case DailyDouble =>
        if round.track.Some? {
          FinishDaily();
        }
      case _ =>
    }

    // ---- The loop ----

    method Fire(what: Deferred, w: World)
      requires Scoring.ValidRatings(dd.ratings)
      modifies this, reg
      ensures View() == E.OnFire(old(View()), what, w)
    {
      hide E.ResolveWindow, E.FireCountdown, E.FireFade, E.CloseRound;
      if what !in pending {
        return;
      }
      pending := pending - multiset{what};
      match what
      case BuzzTimer(key) => ResolveWindow(key, w);
      case Countdown => FireCountdown(w);
      case Fade(key) => FireFade(key);
      case AutoKaraoke(key) =>
        if round.key == key && phase in {RoundActive, Locked} {
          Reveal(w.now);
        }
    }

    predicate FromAdmin(e: Event) {
      e.Kick? || e.AdminAward? || e.EndGame? || e.AdminSelect? || e.AdminReveal? || e.EndRound? || e.Grade?
      || e.SetThreshold? || e.SetVolume? || e.SkipDouble? || e.EndDouble?
    }

    predicate FromControls(e: Event) {
      e.SetThreshold? || e.SetVolume? || e.SkipDouble? || e.EndDouble? || e.AdminAward?
    }

    method DispatchControls(e: Event, w: World)
      requires Scoring.ValidRatings(dd.ratings) && FromControls(e)
      modifies this, reg
      ensures View() == Step(old(View()), e, w)
    {
      hide E.OnAdminAward, E.OnSetThreshold, E.OnSetVolume, E.SkipDaily, E.FadeOut;
      match e
      case AdminAward(p, delta) => AdminAward(p, delta);
      case SetThreshold(percent) => SetThreshold(percent);
      case SetVolume(level) => SetVolume(level);
      case SkipDouble => SkipDaily(w);
      case EndDouble => FadeOut();
    }

    method DispatchRounds(e: Event, w: World)
      requires Scoring.ValidRatings(dd.ratings) && FromAdmin(e) && !FromControls(e)
      modifies this, reg
      ensures View() == Step(old(View()), e, w)
    {
      hide E.OnKick, E.OnEndGame, E.SelectCell, E.RevealNow, E.EndRoundNow, E.OnGrade;
      match e
      case Kick(p, ban) => Kick(p, ban, w);
      case EndGame => EndGame();
      case AdminSelect(at) => SelectCell(at, w);
      case AdminReveal => Reveal(w.now);
      case EndRound => EndRound(w);
      case Grade(v) => Grade(v, w);
    }

    method DispatchAdmin(e: Event, w: World)
      requires Scoring.ValidRatings(dd.ratings) && FromAdmin(e)
      modifies this, reg
      ensures View() == Step(old(View()), e, w)
    {
      hide Step;
      if FromControls(e) {
        DispatchControls(e, w);
      } else {
        DispatchRounds(e, w);
      }
    }

    predicate FromPlayer(e: Event) {
      e.Buzz? || e.Vote? || e.PlayerSelect?
    }

    method DispatchPlayer(e: Event, w: World)
      requires FromPlayer(e)
      modifies this, reg
      ensures View() == Step(old(View()), e, w)
    {
      hide E.OnBuzz, E.OnVote, E.OnPlayerSelect;
      match e
      case Buzz(conn, n, arrival) => Buzz(conn, n, arrival, w);
      case Vote(conn, n) => Vote(conn, n);
      case PlayerSelect(conn, n, at) => PlayerSelect(conn, n, at, w);
    }

    predicate FromStage(e: Event) {
      e.Rate? || e.Decide? || e.Choose?
    }

    /** The players' part in a Daily Double. */
    method DispatchDouble(e: Event, w: World)
      requires FromStage(e)
      modifies this, reg
      ensures View() == Step(old(View()), e, w)
    {
      hide E.OnRate, E.OnDecide, E.OnChoose;
      match e
      case Rate(conn, n, stars) => Rate(conn, n, stars);
      case Decide(conn, n, accept) => Decide(conn, n, accept, w);
      case Choose(conn, n, song) => Choose(conn, n, song, w);
    }

    method DispatchOther(e: Event, w: World)
      requires Scoring.ValidRatings(dd.ratings)
      requires !FromAdmin(e) && !FromPlayer(e) && !FromStage(e)
      modifies this, reg
      ensures View() == Step(old(View()), e, w)
    {
      hide E.OnHello, E.OnHeartbeat, E.OnDisconnect, E.OnStartGame, E.OnReset, E.OnTrackEnded, E.OnSoloPlay,
           E.LockOut, E.ScheduleAutoKaraoke, E.RampStep, E.OnFire;
      match e
      case Connect(conn) => reg.Connect(conn);
      case Hello(conn, role, fp) => Hello(conn, role, fp);
      case Heartbeat(conn) => Heartbeat(conn);
      case Disconnect(conn) => Disconnect(conn, w);
      case StartGame => StartGame(w.deal);
      case ResetToLobby => Reset();
      case TrackEnded(queueOver) => TrackEnded(queueOver, w);
      case SoloPlay(queued) => SoloPlay(queued);
      case SoloStop => solo := false;
      case LetterLockout(key) => LockOut(key);
      case LettersDone(key) => ScheduleAutoKaraoke(key);
      case FadeRamp(key, level) => RampStep(key, level);
      case Fire(what) => Fire(what, w);
    }

    method Dispatch(e: Event, w: World)
      requires Scoring.ValidRatings(dd.ratings)
      modifies this, reg
      ensures View() == Step(old(View()), e, w)
    {
      hide Step;
      if FromAdmin(e) {
        DispatchAdmin(e, w);
      } else if FromPlayer(e) {
        DispatchPlayer(e, w);
      } else if FromStage(e) {
        DispatchDouble(e, w);
      } else {
        DispatchOther(e, w);
      }
    }

    method ScheduleAutoKaraoke(key: Key)
      modifies this`pending
      ensures View() == E.ScheduleAutoKaraoke(old(View()), key)
    {
      if phase == RoundActive && round.key == key {
        pending := pending + multiset{AutoKaraoke(key)};
      }
    }

    method SoloPlay(queued: bool)
      modifies this`solo
      ensures View() == E.OnSoloPlay(old(View()), queued)
    {
      if (phase == Lobby || phase == GameOver) && queued {
        solo := true;
      }
    }

    /** Run: one command after another, with the whole invariant standing between any two. */
    method RunLoop(run: Run)
      requires Inv(View())
      modifies this, reg
      ensures View() == After(old(View()), run) && Inv(View())
    {
      hide Step, RoundInv, PayInv, FadeInv;
      for i := 0 to |run|
        invariant Inv(View())
        invariant After(View(), run[i..]) == After(old(View()), run)
      {
        var (e, w) := run[i];
        ghost var before := View();
        assert run[i..][0] == run[i] && run[i..][1..] == run[i + 1..];
        RoundStep(before, e, w);
        DailyStep(before, e, w);
        Dispatch(e, w);
      }
      assert run[|run|..] == [];
    }
  }
}
