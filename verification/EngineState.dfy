/**
 * The trivia engine as a single-writer state machine: one function for each
 * handler and shared helper of server/internal/game/engine.go, and `Step`,
 * which runs one command of the loop. Deferred work waits in the bag `pending`
 * until a `Fire` command picks it, in any order.
 *
 * The clock and every random outcome reach a command through `World`. Round
 * keys are numbers, 0 standing for the empty key, and each new one is fresh.
 */
module EngineState {
  import opened Common
  import opened Registry
  import opened BuzzWindow
  import Scoring

  type Key = nat
  type TrackId = nat
  type Category = nat

  datatype Coord = Coord(row: nat, col: nat)

  datatype Phase =
    | Lobby | BoardUp | RoundActive | Locked | Adjudicate | Karaoke | Transition | DailyDouble | GameOver

  /** The part of a board that a game does not change; `bucket` is the curated Daily Double pool. */
  datatype Board = Board(grid: seq<Coord>, category: map<Coord, Category>,
                         tracks: map<Coord, seq<TrackId>>, playable: set<TrackId>,
                         doubles: nat, bucket: seq<TrackId>)

  datatype Deferred = BuzzTimer(key: Key) | Countdown | Fade(key: Key) | AutoKaraoke(key: Key)

  datatype Verdict = Correct | Partial | Incorrect | Unknown

  /** `partial` holds the leftover pool once a partial guess has taken its 50. */
  datatype Round = Round(key: Key, track: Option<TrackId>, cell: Option<Coord>, row: nat,
                         startMs: int, pausedMs: int, partial: Option<int>, winner: Option<PlayerId>,
                         windowOpen: bool, contenders: seq<Contender>, locked: bool)

  /** The picker-and-vote gate that leaves KARAOKE. */
  datatype Gate = Gate(picker: Option<PlayerId>, pick: Option<Coord>, ready: bool,
                       pool: set<PlayerId>, votes: set<PlayerId>, pct: nat)

  datatype Offer = Offer(cell: Coord, contestant: PlayerId, candidates: seq<TrackId>)

  /** `trigger` maps each flagged cell to the visit on which it fires. */
  datatype Doubles = Doubles(trigger: map<Coord, nat>, visits: map<Coord, nat>, offer: Option<Offer>,
                             bucket: seq<TrackId>, ratingPool: set<PlayerId>, ratings: map<PlayerId, nat>,
                             lastScorer: Option<PlayerId>, fading: Key)

  /** `sent` is the last level handed to the volume writer. */
  datatype Volume = Volume(pct: int, sent: int)

  /** History that no handler reads: it exists to state what a run has done so far. */
  datatype Ledger = Ledger(rounds: nat, roundRow: nat, roundPoints: int, graded: set<(TrackId, PlayerId)>,
                           performances: nat, performed: seq<TrackId>, paid: multiset<Key>)

  datatype State = State(phase: Phase, nonce: nat, nextKey: Key, board: Board, immediate: bool,
                         played: set<TrackId>, reg: Reg, round: Round, locks: map<Key, PlayerId>,
                         gate: Gate, dd: Doubles, volume: Volume, solo: bool,
                         pending: multiset<Deferred>, ledger: Ledger)

  /** What the environment contributes to one command: the clock, dice and shuffles. */
  datatype World = World(now: int, track: nat, player: nat, cell: nat,
                         order: seq<Contender>, songs: seq<TrackId>, deal: set<Coord>)

  datatype Event =
    | Connect(conn: ConnId)
    | Hello(conn: ConnId, role: Role, fp: Option<nat>)
    | Heartbeat(conn: ConnId)
    | Disconnect(conn: ConnId)
    | Kick(player: PlayerId, ban: bool)
    | StartGame
    | ResetToLobby
    | EndGame
    | AdminSelect(at: Coord)
    | AdminReveal
    | EndRound
    | Grade(verdict: Verdict)
    | AdminAward(player: PlayerId, delta: int)
    | SetThreshold(pct: int)
    | SetVolume(pct: int)
    | SkipDouble
    | EndDouble
    | Buzz(conn: ConnId, nonce: nat, arrival: int)
    | Vote(conn: ConnId, nonce: nat)
    | Rate(conn: ConnId, nonce: nat, stars: int)
    | Decide(conn: ConnId, nonce: nat, accept: bool)
    | Choose(conn: ConnId, nonce: nat, song: TrackId)
    | PlayerSelect(conn: ConnId, nonce: nat, at: Coord)
    | TrackEnded(queueOver: bool)
    | LetterLockout(key: Key)
    | LettersDone(key: Key)
    | FadeRamp(key: Key, level: int)
    | SoloPlay(queued: bool)
    | SoloStop
    | Fire(what: Deferred)

  // ---- Board and registry queries ----

  predicate OnBoard(b: Board, t: TrackId) {
    exists c :: c in b.tracks && t in b.tracks[c]
  }

  /** The unplayed, playable tracks of a cell. */
  function Unplayed(b: Board, played: set<TrackId>, c: Coord): seq<TrackId> {
    if c in b.tracks then Filter(b.tracks[c], b.playable - played) else []
  }

  function Visits(s: State, c: Coord): nat {
    if c in s.dd.visits then s.dd.visits[c] else 0
  }

  /** A contender or contestant that may take part right now. */
  predicate Present(r: Reg, p: PlayerId) {
    p in r.players && !r.players[p].banned && Online(r, p)
  }

  function Eligible(r: Reg): set<PlayerId> {
    set p | p in r.players && Present(r, p) && !r.players[p].guessed
  }

  function PresentMobile(r: Reg): set<PlayerId> {
    set p | p in r.players && Present(r, p) && IsMobile(r, p)
  }

  function Voters(r: Reg): set<PlayerId> {
    set p | p in PresentMobile(r) && r.players[p].active
  }

  function SetGuessed(r: Reg, who: set<PlayerId>, flag: bool): Reg {
    r.(players := map p | p in r.players :: if p in who then r.players[p].(guessed := flag) else r.players[p])
  }

  // ---- Small steps shared by the handlers ----

  function TransitionTo(s: State, phase: Phase): State {
    s.(phase := phase, nonce := s.nonce + 1)
  }

  function ConsumeTrack(s: State): State {
    if s.round.track.None? then s else s.(played := s.played + {s.round.track.value})
  }

  function Release(s: State): State {
    s.(locks := s.locks - {s.round.key})
  }

  /** roundPool: the ceiling and floor a correct guess is paid between. */
  function RoundPool(r: Round): (int, int) {
    var ceiling := if r.partial.Some? then r.partial.value else Scoring.MaxPointsForRow(r.row);
    var floor := if r.partial.Some? then Scoring.BASE - Scoring.PARTIAL else Scoring.BASE;
    (ceiling, if floor > ceiling then ceiling else floor)
  }

  /** award: credits points, and remembers who last earned some. */
  function Award(s: State, p: PlayerId, points: int): State
    requires p in s.reg.players
  {
    s.(reg := SetPlayer(s.reg, p, s.reg.players[p].(score := s.reg.players[p].score + points)),
       dd := if points > 0 then s.dd.(lastScorer := Some(p)) else s.dd)
  }

  function ResumeAudio(s: State, now: int): State {
    s.(round := s.round.(startMs := now - s.round.pausedMs))
  }

  function ClearGate(s: State): State {
    s.(gate := s.gate.(picker := None, pick := None, ready := false))
  }

  function CloseWindow(s: State): State {
    s.(round := s.round.(windowOpen := false, contenders := []))
  }

  // ---- Rounds ----

  function StartTrack(s: State, c: Coord, t: TrackId, now: int): State {
    TransitionTo(
      s.(round := Round(s.nextKey, Some(t), Some(c), c.row, now, 0, None, None, false, [], false),
         nextKey := s.nextKey + 1,
         reg := SetGuessed(s.reg, s.reg.players.Keys, false),
         ledger := s.ledger.(rounds := s.ledger.rounds + 1, roundRow := c.row, roundPoints := 0)),
      RoundActive)
  }

  function StartCellNormally(s: State, c: Coord, w: World): State {
    var pool := Unplayed(s.board, s.played, c);
    if pool == [] then TransitionTo(s.(round := s.round.(cell := None)), BoardUp)
    else StartTrack(s, c, Pick(pool, w.track), w.now)
  }

  /** selectCell refuses while a round or a Daily Double is live. */
  predicate Busy(s: State) {
    s.phase in {RoundActive, Locked, Adjudicate, DailyDouble}
  }

  /** The gate reset with which an accepted selection begins. */
  function DropPick(s: State): State {
    if s.gate.picker.Some? || s.gate.pick.Some? then ClearGate(s) else s
  }

  predicate Fires(s: State, c: Coord) {
    c in s.dd.trigger && s.dd.trigger[c] > 0 && Visits(s, c) == s.dd.trigger[c]
  }

  function Visit(s: State, c: Coord): State {
    s.(dd := s.dd.(visits := s.dd.visits[c := Visits(s, c) + 1]))
  }

  function SelectCell(s: State, c: Coord, w: World): State {
    if Busy(s) then s
    else
      var s1 := DropPick(s);
      if Unplayed(s1.board, s1.played, c) == [] then s1
      else
        var s2 := Visit(s1, c);
        if Fires(s2, c) then BeginOffer(s2, c, w)
        else StartTrack(s2, c, Pick(Unplayed(s2.board, s2.played, c), w.track), w.now)
  }

  function EndRoundNow(s: State, w: World): State {
    if s.phase == DailyDouble then SkipDaily(s, w)
    else
      var s1 := Release(ConsumeTrack(s));
      TransitionTo(
        s1.(round := s1.round.(track := None, cell := None, winner := None, windowOpen := false,
                               contenders := [], partial := None)),
        BoardUp)
  }

  // ---- Buzzing and grading ----

  function CloseRound(s: State, now: int): State {
    EnterKaraoke(Release(s.(round := s.round.(winner := None))), now)
  }

  function OnBuzz(s: State, conn: ConnId, nonce: nat, arrival: int, w: World): State {
    var who := Owner(s.reg, conn);
    if s.phase != RoundActive || s.round.locked || nonce != s.nonce || who.None? then s
    else if s.reg.players[who.value].banned || s.reg.players[who.value].guessed then s
    else
      var c := Contender(who.value, conn, arrival);
      if s.round.windowOpen then
        s.(round := s.round.(contenders := Enqueue(s.round.contenders, c)))
      else
        var s1 := s.(round := s.round.(windowOpen := true, contenders := [c]));
        if s.immediate then ResolveWindow(s1, s1.round.key, w)
        else s1.(pending := s1.pending + multiset{BuzzTimer(s1.round.key)})
  }

  function ResolveWindow(s: State, key: Key, w: World): State {
    if s.phase != RoundActive || s.round.key != key || !s.round.windowOpen then s
    else
      var winner := Winner(s.round.contenders, w.order, Eligible(s.reg));
      if winner.None? || key in s.locks then CloseWindow(s)
      else
        CloseWindow(
          AwardBuzz(s.(locks := s.locks[key := winner.value.player]), winner.value.player, w.now))
  }

  function AwardBuzz(s: State, p: PlayerId, now: int): State {
    var s1 := s.(round := s.round.(winner := Some(p), pausedMs := now - s.round.startMs));
    TransitionTo(TransitionTo(s1, Locked), Adjudicate)
  }

  function OnGrade(s: State, v: Verdict, w: World): State {
    if s.phase != Adjudicate then s
    else if s.round.winner.None? || s.round.winner.value !in s.reg.players then EndRoundNow(s, w)
    else
      var p := s.round.winner.value;
      var s1 := s.(reg := SetPlayer(s.reg, p, s.reg.players[p].(guessed := true)));
      if v == Unknown then s1
      else
        var s2 := if s.round.track.Some?
                  then s1.(ledger := s1.ledger.(graded := s1.ledger.graded + {(s.round.track.value, p)}))
                  else s1;
        match v
        case Correct => GradeCorrect(s2, p, w.now)
        case Partial => GradePartial(s2, p, w.now)
        case _ => GradeIncorrect(s2, w.now)
  }

  /** An award that counts towards the points of the round. */
  function AwardRound(s: State, p: PlayerId, points: int): State
    requires p in s.reg.players
  {
    var s1 := Award(s, p, points);
    s1.(ledger := s1.ledger.(roundPoints := s1.ledger.roundPoints + points))
  }

  function GradeCorrect(s: State, p: PlayerId, now: int): State
    requires p in s.reg.players
  {
    var (ceiling, floor) := RoundPool(s.round);
    var s1 := AwardRound(s, p, Scoring.PoolPoints(ceiling, floor, s.round.pausedMs));
    CloseRound(ConsumeTrack(s1.(gate := s1.gate.(picker := Some(p)))), now)
  }

  /** What a partial guess leaves in the pool. */
  function PoolAfterPartial(r: Round): int {
    if r.partial.None? then Scoring.Leftover(r.row, r.pausedMs)
    else if r.partial.value < Scoring.PARTIAL then 0
    else r.partial.value - Scoring.PARTIAL
  }

  function GradePartial(s: State, p: PlayerId, now: int): State
    requires p in s.reg.players
  {
    var s1 := AwardRound(s, p, Scoring.PARTIAL);
    var s2 := s1.(round := s1.round.(partial := Some(PoolAfterPartial(s.round))));
    if s.round.partial.Some? then CloseRound(ConsumeTrack(s2), now)
    else
      var s3 := s2.(round := s2.round.(startMs := now - 5001, winner := None));
      TransitionTo(Release(s3), RoundActive)
  }

  function GradeIncorrect(s: State, now: int): State {
    var s1 := ResumeAudio(s, now);
    TransitionTo(Release(s1.(round := s1.round.(winner := None))), RoundActive)
  }

  /** The letter clock's lockout: nobody may buzz for the rest of the round. */
  function LockOut(s: State, key: Key): State {
    if s.phase != RoundActive || s.round.key != key then s
    else
      var mobile := set p | p in s.reg.players && IsMobile(s.reg, p);
      s.(round := s.round.(locked := true), reg := SetGuessed(s.reg, mobile, true))
  }

  function ScheduleAutoKaraoke(s: State, key: Key): State {
    if s.phase != RoundActive || s.round.key != key then s
    else s.(pending := s.pending + multiset{AutoKaraoke(key)})
  }

  function FireAutoKaraoke(s: State, key: Key, now: int): State {
    if s.round.key != key || s.phase !in {RoundActive, Locked} then s
    else CloseRound(ConsumeTrack(s), now)
  }

  // ---- Karaoke ----

  function EnterKaraoke(s: State, now: int): State {
    var s1 := TransitionTo(ResumeAudio(s, now), Karaoke);
    s1.(gate := s1.gate.(pool := Voters(s1.reg), votes := {}))
  }

  function RevealNow(s: State, now: int): State {
    CloseRound(ConsumeTrack(s), now)
  }

  function ActiveVoters(s: State): set<PlayerId> {
    set p | p in s.gate.pool && Online(s.reg, p)
  }

  function CountedVotes(s: State): set<PlayerId> {
    set p | p in s.gate.votes && p in s.gate.pool && Online(s.reg, p)
  }

  /** needVotes: strictly more than `pct` percent of the active voters, or all of them at 100. */
  function NeedVotes(active: nat, pct: nat): nat {
    if pct >= 100 then active
    else
      var need := active * pct / 100 + 1;
      var capped := if need > active then active else need;
      if capped < 1 && active > 0 then 1 else capped
  }

  predicate ThresholdMet(s: State) {
    var active := |ActiveVoters(s)|;
    active > 0 && |CountedVotes(s)| >= NeedVotes(active, s.gate.pct)
  }

  function BeginTransition(s: State): State {
    TransitionTo(s.(pending := s.pending + multiset{Countdown}), Transition)
  }

  function ConditionMet(s: State): State {
    if s.gate.picker.None? || s.gate.pick.Some? then BeginTransition(s)
    else s.(gate := s.gate.(ready := true))
  }

  function EvaluateVotes(s: State): State {
    if s.phase == Karaoke && ThresholdMet(s) then ConditionMet(s) else s
  }

  function OnVote(s: State, conn: ConnId, nonce: nat): State {
    var who := Owner(s.reg, conn);
    if s.phase != Karaoke || nonce != s.nonce || who.None? || who.value !in s.gate.pool then s
    else EvaluateVotes(s.(gate := s.gate.(votes := s.gate.votes + {who.value})))
  }

  /** A pick that is accepted: the picker's own, fresh, and on a live cell. */
  predicate PickAccepted(s: State, conn: ConnId, nonce: nat, c: Coord) {
    && s.phase in {Karaoke, BoardUp}
    && nonce == s.nonce
    && var who := Owner(s.reg, conn);
    && who.Some? && !s.reg.players[who.value].banned && s.gate.picker == who
    && Unplayed(s.board, s.played, c) != []
  }

  function OnPlayerSelect(s: State, conn: ConnId, nonce: nat, c: Coord, w: World): State {
    if !PickAccepted(s, conn, nonce, c) then s
    else if s.phase == BoardUp then SelectCell(s, c, w)
    else if s.gate.pick.Some? then s
    else
      var s1 := s.(gate := s.gate.(pick := Some(c)));
      if s1.gate.ready then BeginTransition(s1) else s1
  }

  function FireCountdown(s: State, w: World): State {
    if s.phase != Transition then s
    else
      var pick := s.gate.pick;
      var s1 := TransitionTo(
                  s.(round := s.round.(track := None, cell := None), gate := s.gate.(pick := None)), BoardUp);
      if pick.Some? && Unplayed(s1.board, s1.played, pick.value) != [] then SelectCell(s1, pick.value, w)
      else s1.(gate := s1.gate.(picker := None, ready := false))
  }

  // ---- Daily Double ----

  function Unflag(s: State, c: Coord): State {
    s.(dd := s.dd.(trigger := s.dd.trigger - {c}))
  }

  function BeginOffer(s: State, c: Coord, w: World): State {
    var last := s.dd.lastScorer;
    if last.Some? && Present(s.reg, last.value) then OpenOffer(s, c, last.value)
    else
      var standIns := Filter(s.reg.roster, PresentMobile(s.reg));
      if standIns == [] then StartCellNormally(Unflag(s, c), c, w)
      else OpenOffer(s, c, Pick(standIns, w.player))
  }

  function OpenOffer(s: State, c: Coord, contestant: PlayerId): State {
    TransitionTo(s.(round := s.round.(cell := Some(c)), dd := s.dd.(offer := Some(Offer(c, contestant, [])))),
                 DailyDouble)
  }

  /** Cells that can take over from a declined one. */
  function Heirs(s: State, declined: Coord): set<Coord> {
    set c | c in s.board.tracks && c != declined && c !in s.dd.trigger && Unplayed(s.board, s.played, c) != []
  }

  function Rearm(s: State, declined: Coord, die: nat): State {
    var heirs := Filter(s.board.grid, Heirs(s, declined));
    if heirs == [] then s
    else
      var next := Pick(heirs, die);
      s.(dd := s.dd.(trigger := s.dd.trigger[next := Visits(s, next) + 1]))
  }

  function Decline(s: State, w: World): State {
    if s.phase != DailyDouble || s.dd.offer.None? then s
    else
      var o := s.dd.offer.value;
      var s1 := Unflag(s, o.cell);
      var s2 := s1.(dd := s1.dd.(bucket := s1.dd.bucket + o.candidates, offer := None));
      var s3 := Rearm(s2, o.cell, w.cell);
      if o.cell in s.board.tracks then StartCellNormally(s3, o.cell, w)
      else TransitionTo(s3.(round := s3.round.(cell := None)), BoardUp)
  }

  /** Only the offered contestant, on its own connection and with a fresh nonce. */
  predicate FromContestant(s: State, conn: ConnId, nonce: nat) {
    && s.phase == DailyDouble && s.dd.offer.Some?
    && nonce == s.nonce
    && Owner(s.reg, conn) == Some(s.dd.offer.value.contestant)
  }

  function OnDecide(s: State, conn: ConnId, nonce: nat, accept: bool, w: World): State {
    if !FromContestant(s, conn, nonce) then s
    else if !accept then Decline(s, w)
    else if s.dd.offer.value.candidates != [] then s
    else if s.dd.bucket == [] then Decline(s, w)
    else
      var bucket := Shuffled(s.dd.bucket, w.songs);
      var n := if |bucket| < 5 then |bucket| else 5;
      s.(dd := s.dd.(bucket := bucket[n..], offer := Some(s.dd.offer.value.(candidates := bucket[..n]))))
  }

  function OnChoose(s: State, conn: ConnId, nonce: nat, song: TrackId, w: World): State {
    if !FromContestant(s, conn, nonce) || song !in s.dd.offer.value.candidates then s
    else StartPerformance(s, s.dd.offer.value.contestant, song, w)
  }

  function Unchosen(candidates: seq<TrackId>, song: TrackId): seq<TrackId> {
    Filter(candidates, (set t | t in candidates) - {song})
  }

  function StartPerformance(s: State, p: PlayerId, song: TrackId, w: World): State
    requires s.dd.offer.Some?
  {
    var o := s.dd.offer.value;
    if o.cell !in s.board.tracks then Decline(s, w)
    else
      s.(round := s.round.(cell := Some(o.cell), track := Some(song), row := o.cell.row, startMs := w.now,
                           key := s.nextKey, partial := None),
         nextKey := s.nextKey + 1,
         gate := s.gate.(picker := Some(p)),
         dd := s.dd.(bucket := s.dd.bucket + Unchosen(o.candidates, song), offer := None,
                     ratingPool := PresentMobile(s.reg) - {p}, ratings := map[]),
         ledger := s.ledger.(performances := s.ledger.performances + 1,
                             performed := s.ledger.performed + [song]))
  }

  function OnRate(s: State, conn: ConnId, nonce: nat, stars: int): State {
    var who := Owner(s.reg, conn);
    if s.phase != DailyDouble || nonce != s.nonce || who.None? || who.value !in s.dd.ratingPool then s
    else if stars < 1 || stars > 5 then s
    else s.(dd := s.dd.(ratings := s.dd.ratings[who.value := stars]))
  }

  predicate Performing(s: State) {
    s.phase == DailyDouble && s.round.track.Some?
  }

  function CheckComplete(s: State): State {
    if Performing(s) && s.dd.ratingPool != {} && |s.dd.ratings| >= |s.dd.ratingPool| then FadeOut(s) else s
  }

  function FadeOut(s: State): State {
    if !Performing(s) || (s.dd.fading != 0 && s.dd.fading == s.round.key) then s
    else s.(dd := s.dd.(fading := s.round.key), pending := s.pending + multiset{Fade(s.round.key)})
  }

  function FinishDaily(s: State): State {
    var paying := s.gate.picker.Some? && s.gate.picker.value in s.reg.players;
    var s1 := if paying
              then Award(s, s.gate.picker.value, Scoring.Payout(s.round.row, s.dd.ratings))
              else s.(gate := s.gate.(picker := None));
    TransitionTo(
      s1.(round := s1.round.(track := None, cell := None),
          dd := s1.dd.(ratingPool := {}, ratings := map[]),
          ledger := if paying then s1.ledger.(paid := s1.ledger.paid + multiset{s.round.key}) else s1.ledger),
      BoardUp)
  }

  function SkipDaily(s: State, w: World): State {
    if s.phase != DailyDouble then s
    else if s.round.track.Some? then FinishDaily(s)
    else if s.dd.offer.Some? then Decline(s, w)
    else s
  }

  /** One step of a fade's ramp, sent off the loop while the fade is in flight. */
  function RampStep(s: State, key: Key, level: int): State {
    if Fade(key) !in s.pending then s else s.(volume := s.volume.(sent := level))
  }

  function FireFade(s: State, key: Key): State {
    var s1 := if s.round.key == key && Performing(s) then FinishDaily(s) else s;
    s1.(volume := s1.volume.(sent := s1.volume.pct),
        dd := if s1.dd.fading == key then s1.dd.(fading := 0) else s1.dd)
  }

  function OnSetVolume(s: State, pct: int): State {
    var v := if pct < 0 then 0 else if pct > 100 then 100 else pct;
    s.(volume := Volume(v, v))
  }

  // ---- People ----

  function OnHello(s: State, conn: ConnId, role: Role, fp: Option<nat>): State {
    var r := Resolve(s.reg, conn, role, fp);
    var p := Identity(conn, fp);
    s.(reg := if p in r.players && !r.players[p].banned && role == Mobile
              then SetPlayer(r, p, r.players[p].(active := true)) else r)
  }

  /** A heartbeat marks a phone active again. */
  function OnHeartbeat(s: State, conn: ConnId): State {
    var who := Owner(s.reg, conn);
    if who.Some? && IsMobile(s.reg, who.value)
    then s.(reg := SetPlayer(s.reg, who.value, s.reg.players[who.value].(active := true)))
    else s
  }

  /** The admin's correction of a score: at most 1000 either way, never below zero, and no play of anybody's. */
  function OnAdminAward(s: State, p: PlayerId, delta: int): State {
    if p !in s.reg.players then s
    else
      var d := if delta < -1000 then -1000 else if delta > 1000 then 1000 else delta;
      var score := s.reg.players[p].score + d;
      s.(reg := SetPlayer(s.reg, p, s.reg.players[p].(score := if score < 0 then 0 else score)))
  }

  /** Drops a player from the voting and rating pools. */
  function LeavePools(s: State, p: PlayerId): State {
    var s1 := s.(gate := s.gate.(pool := s.gate.pool - {p}),
                 dd := s.dd.(ratingPool := s.dd.ratingPool - {p}, ratings := s.dd.ratings - {p}));
    if p in s1.reg.players
    then s1.(reg := SetPlayer(s1.reg, p, s1.reg.players[p].(active := false)))
    else s1
  }

  /** What a contestant or rater leaving does to a live Daily Double. */
  function DailyWithout(s: State, p: PlayerId, w: World): State {
    if s.phase != DailyDouble then s
    else if s.dd.offer.Some? && s.dd.offer.value.contestant == p then Decline(s, w)
    else CheckComplete(s)
  }

  function OnDisconnect(s: State, conn: ConnId, w: World): State {
    var (reg, gone) := RemoveConn(s.reg, conn);
    var s1 := s.(reg := reg);
    if gone.None? then s1
    else
      var p := gone.value;
      var s2 := DailyWithout(EvaluateVotes(LeavePools(s1, p)), p, w);
      if s2.gate.picker != Some(p) then s2
      else
        var s3 := ClearGate(s2);
        if s2.gate.ready && s2.phase == Karaoke then BeginTransition(s3) else s3
  }

  function OnKick(s: State, p: PlayerId, ban: bool, w: World): State {
    if p !in s.reg.players then s
    else
      var s1 := if ban then s.(reg := SetPlayer(s.reg, p, s.reg.players[p].(banned := true))) else s;
      var s2 := DailyWithout(EvaluateVotes(LeavePools(s1, p)), p, w);
      if s2.gate.picker == Some(p) then ClearGate(s2) else s2
  }

  // ---- Games ----

  function Half(pct: int): nat {
    if pct < 50 then 50 else if pct > 100 then 100 else pct
  }

  function OnSetThreshold(s: State, pct: int): State {
    EvaluateVotes(s.(gate := s.gate.(pct := Half(pct))))
  }

  /** Cells that may be dealt a Daily Double: at least two tracks left. */
  function Dealable(s: State): set<Coord> {
    set c | c in s.board.tracks && |Unplayed(s.board, s.played, c)| >= 2
  }

  function CategoryOf(b: Board, c: Coord): Category {
    if c in b.category then b.category[c] else 0
  }

  /** The cells of a category. */
  function Of(cells: set<Coord>, b: Board, cat: Category): set<Coord> {
    set c | c in cells && CategoryOf(b, c) == cat
  }

  /** A category trails another by more than one flag only if all its eligible cells are flagged. */
  predicate Balanced(flagged: set<Coord>, eligible: set<Coord>, b: Board) {
    forall x, y :: x in eligible && y in eligible
                   && |Of(flagged, b, CategoryOf(b, x))| + 1 < |Of(flagged, b, CategoryOf(b, y))| ==>
                     Of(eligible, b, CategoryOf(b, x)) <= flagged
  }

  /** What assignDailyDoubles promises of its deal. */
  predicate ValidDeal(s: State, deal: set<Coord>) {
    && deal <= Dealable(s)
    && |deal| == (if s.board.doubles < |Dealable(s)| then s.board.doubles else |Dealable(s)|)
    && Balanced(deal, Dealable(s), s.board)
  }

  /** A proposal that assignDailyDoubles cannot produce stands for no behaviour. */
  function OnStartGame(s: State, deal: set<Coord>): State {
    if s.solo || s.phase != Lobby || !ValidDeal(s, deal) then s
    else TransitionTo(s.(dd := s.dd.(visits := map[], trigger := map c | c in deal :: 2)), BoardUp)
  }

  const NO_ROUND := Round(0, None, None, 0, 0, 0, None, None, false, [], false)

  function ClearScores(r: Reg): Reg {
    r.(players := map p | p in r.players :: r.players[p].(score := 0, guessed := false))
  }

  /** Keeps the flags, the leftover partial, and the gate's `pick` and `ready`. */
  function OnReset(s: State): State {
    if s.phase != GameOver then s
    else
      TransitionTo(
        s.(round := NO_ROUND.(partial := s.round.partial, locked := s.round.locked),
           gate := s.gate.(picker := None, pool := {}, votes := {}),
           dd := s.dd.(ratingPool := {}, ratings := map[], lastScorer := None, visits := map[], offer := None,
                       bucket := s.board.bucket),
           reg := ClearScores(s.reg),
           played := (set t | t in s.played && !OnBoard(s.board, t)),
           ledger := s.ledger.(rounds := 0, roundPoints := 0, graded := {}, performances := 0, performed := [])),
        Lobby)
  }

  function OnEndGame(s: State): State {
    TransitionTo(if Performing(s) then FinishDaily(s) else s, GameOver)
  }

  function OnTrackEnded(s: State, queueOver: bool, w: World): State {
    if s.solo then s.(solo := !queueOver)
    else match s.phase
         case Karaoke => ConditionMet(s)
         case RoundActive => EndRoundNow(s, w)
         case DailyDouble => if s.round.track.Some? then FinishDaily(s) else s
         case _ => s
  }

  function OnSoloPlay(s: State, queued: bool): State {
    if s.phase !in {Lobby, GameOver} || !queued then s else s.(solo := true)
  }

  // ---- The loop ----

  function OnFire(s: State, what: Deferred, w: World): State {
    if what !in s.pending then s
    else
      var s1 := s.(pending := s.pending - multiset{what});
      match what
      case BuzzTimer(key) => ResolveWindow(s1, key, w)
      case Countdown => FireCountdown(s1, w)
      case Fade(key) => FireFade(s1, key)
      case AutoKaraoke(key) => FireAutoKaraoke(s1, key, w.now)
  }

  function Step(s: State, e: Event, w: World): State {
    match e
    case Connect(conn) => s.(reg := AddConn(s.reg, conn))
    case Hello(conn, role, fp) => OnHello(s, conn, role, fp)
    case Heartbeat(conn) => OnHeartbeat(s, conn)
    case Disconnect(conn) => OnDisconnect(s, conn, w)
    case Kick(p, ban) => OnKick(s, p, ban, w)
    case StartGame => OnStartGame(s, w.deal)
    case ResetToLobby => OnReset(s)
    case EndGame => OnEndGame(s)
    case AdminSelect(at) => SelectCell(s, at, w)
    case AdminReveal => RevealNow(s, w.now)
    case EndRound => EndRoundNow(s, w)
    case Grade(v) => OnGrade(s, v, w)
    case AdminAward(p, delta) => OnAdminAward(s, p, delta)
    case SetThreshold(pct) => OnSetThreshold(s, pct)
    case SetVolume(pct) => OnSetVolume(s, pct)
    case SkipDouble => SkipDaily(s, w)
    case EndDouble => FadeOut(s)
    case Buzz(conn, nonce, arrival) => OnBuzz(s, conn, nonce, arrival, w)
    case Vote(conn, nonce) => OnVote(s, conn, nonce)
    case Rate(conn, nonce, stars) => OnRate(s, conn, nonce, stars)
    case Decide(conn, nonce, accept) => OnDecide(s, conn, nonce, accept, w)
    case Choose(conn, nonce, song) => OnChoose(s, conn, nonce, song, w)
    case PlayerSelect(conn, nonce, at) => OnPlayerSelect(s, conn, nonce, at, w)
    case TrackEnded(queueOver) => OnTrackEnded(s, queueOver, w)
    case LetterLockout(key) => LockOut(s, key)
    case LettersDone(key) => ScheduleAutoKaraoke(s, key)
    case FadeRamp(key, level) => RampStep(s, key, level)
    case SoloPlay(queued) => OnSoloPlay(s, queued)
    case SoloStop => s.(solo := false)
    case Fire(what) => OnFire(s, what, w)
  }

  type Run = seq<(Event, World)>

  /** The state after a whole run of commands. */
  function After(s: State, run: Run): State
    decreases |run|
  {
    if run == [] then s else After(Step(s, run[0].0, run[0].1), run[1..])
  }

  /** A freshly built engine with a board attached. */
  ghost predicate Init(s: State) {
    && s.phase == Lobby && s.nextKey == 1 && s.played == {}
    && s.reg == EMPTY && s.round == NO_ROUND && s.locks == map[]
    && s.gate.picker == None && s.gate.pick == None && !s.gate.ready && s.gate.pool == {} && s.gate.votes == {}
    && s.dd == Doubles(map[], map[], None, s.board.bucket, {}, map[], None, 0)
    && s.volume == Volume(100, 100) && !s.solo
    && s.pending == multiset{}
    && s.ledger == Ledger(0, 0, 0, {}, 0, [], multiset{})
    && WellFormed(s.board)
  }

  /** Every song is its own object: cells do not share tracks, and the bucket holds neither repeats nor grid tracks. */
  ghost predicate WellFormed(b: Board) {
    && (forall c :: c in b.grid <==> c in b.tracks)
    && NoDup(b.grid)
    && (forall c :: c in b.tracks ==> NoDup(b.tracks[c]))
    && (forall c, d, t :: c in b.tracks && d in b.tracks && t in b.tracks[c] && t in b.tracks[d] ==> c == d)
    && NoDup(b.bucket)
    && (forall t :: t in b.bucket ==> !OnBoard(b, t))
  }
}
