/**
 * Runs from a fresh engine that reach each exception to an invariant, on a board
 * of two cells with two phones, the second of which sent no fingerprint.
 */
module Scenarios {
  import opened Common
  import opened Registry
  import opened BuzzWindow
  import opened EngineState
  import opened RoundSafety
  import opened DailySafety
  import opened GateTheory
  import opened Frames
  import opened Songs
  import opened ModeLock
  import T = Tracks
  import Scoring

  const A := Coord(0, 0)
  const B := Coord(0, 1)
  const P: PlayerId := Device(7)
  const Q: PlayerId := Anonymous(1)

  function TwoCells(doubles: nat): Board {
    Board([A, B], map[A := 0, B := 1], map[A := [1, 2], B := [3, 4]], {1, 2, 3, 4}, doubles, [10, 11])
  }

  function Fresh(doubles: nat): State {
    State(Lobby, 0, 1, TwoCells(doubles), true, {}, EMPTY, NO_ROUND, map[], Gate(None, None, false, {}, {}, 50),
          Doubles(map[], map[], None, [10, 11], {}, map[], None, 0), Volume(100, 100), false, multiset{},
          Ledger(0, 0, 0, {}, 0, [], multiset{}))
  }

  lemma FreshInit(doubles: nat)
    ensures Init(Fresh(doubles)) && Inv(Fresh(doubles))
  {
    var b := TwoCells(doubles);
    assert forall c :: c in b.tracks ==> c == A || c == B;
    assert WellFormed(b);
    InitInv(Fresh(doubles));
  }

  /** One more command at the end of a run. */
  lemma {:induction false} Then(s: State, run: Run, e: Event, w: World)
    ensures After(s, run + [(e, w)]) == Step(After(s, run), e, w)
    decreases |run|
  {
    hide Step;
    if run == [] {
      assert run + [(e, w)] == [(e, w)] && [(e, w)][1..] == [];
      assert After(s, [(e, w)]) == After(Step(s, e, w), []);
    } else {
      assert (run + [(e, w)])[1..] == run[1..] + [(e, w)];
      Then(Step(s, run[0].0, run[0].1), run[1..], e, w);
    }
  }

  // ---- Waypoints ----

  predicate Seated(r: Reg) {
    && r.conns == map[0 := Conn(Mobile, Some(P)), 1 := Conn(Mobile, Some(Q))]
    && r.byPlayer == map[P := {0}, Q := {1}]
    && r.roster == [P, Q]
    && r.players.Keys == {P, Q}
    && !r.players[P].banned && !r.players[Q].banned && r.players[P].active && r.players[Q].active
  }

  ghost predicate Table(s: State, doubles: nat) {
    Inv(s) && s.board == TwoCells(doubles) && !s.solo && s.immediate && s.gate.pct == 50 && Seated(s.reg)
  }

  lemma SeatedPresent(r: Reg)
    requires Seated(r)
    ensures Present(r, P) && Present(r, Q) && IsMobile(r, P) && IsMobile(r, Q)
    ensures PresentMobile(r) == {P, Q} && Voters(r) == {P, Q}
    ensures Owner(r, 0) == Some(P) && Owner(r, 1) == Some(Q)
  {
    assert 0 in r.byPlayer[P] && 1 in r.byPlayer[Q];
  }

  /** A phone that nobody knows says hello. */
  lemma Greets(s: State, c: ConnId, fp: Option<nat>, w: World)
    requires var p := Identity(c, fp); p !in s.reg.players && p !in s.reg.roster && p !in s.reg.byPlayer
    ensures var p := Identity(c, fp);
            Step(s, Hello(c, Mobile, fp), w) ==
            s.(reg := Reg(s.reg.conns[c := Conn(Mobile, Some(p))], s.reg.players[p := NEWCOMER],
                          s.reg.roster + [p], s.reg.byPlayer[p := {c}]))
  {
    var p := Identity(c, fp);
    assert {} + {c} == {c};
    assert s.reg.players[p := NEWCOMER][p := NEWCOMER] == s.reg.players[p := NEWCOMER];
  }

  lemma Arrive(doubles: nat, w: World) returns (run: Run)
    ensures var s, t := Fresh(doubles), After(Fresh(doubles), run);
            t == s.(reg := t.reg) && Table(t, doubles)
  {
    hide After, Inv;
    var s := Fresh(doubles);
    StartsAt(s);
    run := [];
    var s1 := Step(s, Connect(0), w);
    Then(s, run, Connect(0), w);
    run := run + [(Connect(0), w)];
    assert s1.reg == Reg(map[0 := Conn(Unset, None)], map[], [], map[]);
    var s2 := Step(s1, Hello(0, Mobile, Some(7)), w);
    Greets(s1, 0, Some(7), w);
    Then(s, run, Hello(0, Mobile, Some(7)), w);
    run := run + [(Hello(0, Mobile, Some(7)), w)];
    var s3 := Step(s2, Connect(1), w);
    Then(s, run, Connect(1), w);
    run := run + [(Connect(1), w)];
    var s4 := Step(s3, Hello(1, Mobile, None), w);
    Greets(s3, 1, None, w);
    Then(s, run, Hello(1, Mobile, None), w);
    run := run + [(Hello(1, Mobile, None), w)];
    SeatedPhones(s4.reg);
    FreshInit(doubles);
    Reachable(s, run);
  }

  lemma SeatedPhones(r: Reg)
    requires r == Reg(map[0 := Conn(Mobile, Some(P)), 1 := Conn(Mobile, Some(Q))], map[P := NEWCOMER, Q := NEWCOMER],
                      [P, Q], map[P := {0}, Q := {1}])
    ensures Seated(r)
  {
  }

  lemma StartsAt(s: State)
    ensures After(s, []) == s
  {
  }

  /** A command that leaves the table as it is. */
  lemma TableKept(s: State, e: Event, w: World, doubles: nat)
    requires Table(s, doubles)
    requires var t := Step(s, e, w); Seated(t.reg) && !t.solo && t.gate.pct == s.gate.pct
    ensures Table(Step(s, e, w), doubles)
  {
    hide Step, Inv, Seated;
    StepInv(s, e, w);
    StepFramed(s, e, w);
  }

  /** A game without Daily Doubles has been started. */
  ghost predicate Opened(s: State) {
    && Table(s, 0) && s.phase == BoardUp
    && s.gate.picker.None? && s.gate.pick.None? && s.dd.trigger == map[] && s.played == {}
    && s.ledger.graded == {}
  }

  lemma Opens(s: State, w: World)
    requires Table(s, 0) && s.phase == Lobby && s.gate.picker.None? && s.gate.pick.None? && s.played == {}
             && w.deal == {}
    requires s.ledger.graded == {}
    ensures var t := Step(s, StartGame, w); Opened(t) && t.gate == s.gate
  {
    hide Inv, Unplayed;
    assert ValidDeal(s, {}) by { NothingDealt(s); }
    var flags: map<Coord, nat> := map c | c in w.deal :: 2;
    assert flags == map[];
    TableKept(s, StartGame, w, 0);
  }

  lemma NothingDealt(s: State)
    requires s.board.doubles == 0
    ensures ValidDeal(s, {})
  {
    hide Unplayed;
    forall x | x in Dealable(s)
      ensures Of({}, s.board, CategoryOf(s.board, x)) == {}
    {
    }
  }

  /** The first track of cell A is being played, and both phones may buzz. */
  ghost predicate Playing(s: State) {
    && Table(s, 0) && s.phase == RoundActive && s.round.track == Some(1) && !s.round.locked && s.played == {}
    && !s.reg.players[P].guessed && !s.reg.players[Q].guessed && s.ledger.graded == {}
  }

  lemma AllUnplayed(s: State)
    requires s.board == TwoCells(s.board.doubles)
    ensures s.played == {} ==> Unplayed(s.board, s.played, A) == [1, 2]
    ensures 3 !in s.played ==> Unplayed(s.board, s.played, B) != []
    ensures Unplayed(s.board, s.played, Coord(9, 9)) == []
  {
    assert s.board.tracks[A] == [1, 2] && s.board.tracks[B] == [3, 4] && 3 in s.board.tracks[B];
    if s.played == {} {
      assert s.board.playable - s.played == {1, 2, 3, 4};
      assert [1, 2][1..] == [2] && [2][1..] == [];
      assert Filter([2], s.board.playable - s.played) == [2] + Filter([], s.board.playable - s.played);
    }
  }

  lemma SelectPlays(s: State, w: World)
    requires Opened(s) && w.track == 0
    ensures var t := Step(s, AdminSelect(A), w); Playing(t) && t.gate == s.gate
  {
    hide Inv, Unplayed;
    AllUnplayed(s);
    TableKept(s, AdminSelect(A), w, 0);
  }

  function Phone(c: ConnId): PlayerId {
    if c == 0 then P else Q
  }

  /** A buzz has won and waits for the host. */
  ghost predicate Judged(s: State, p: PlayerId) {
    && Table(s, 0) && s.phase == Adjudicate && s.round.track == Some(1) && s.round.winner == Some(p) && s.played == {}
    && s.ledger.graded == {}
  }

  lemma BuzzWins(s: State, c: ConnId, w: World)
    requires Playing(s) && c in {0, 1}
    ensures var t := Step(s, Buzz(c, s.nonce, 0), w); Judged(t, Phone(c)) && t.gate == s.gate && t.reg == s.reg
  {
    hide Step, Winner, Eligible, Inv, Seated;
    var x := Contender(Phone(c), c, 0);
    SeatedPresent(s.reg);
    StillEligible(s, Phone(c));
    SoleWinner(x, w.order, Eligible(s.reg));
    BuzzResolves(s, c, w);
    FreeLock(s);
    TableKept(s, Buzz(c, s.nonce, 0), w, 0);
  }

  lemma BuzzResolves(s: State, c: ConnId, w: World)
    requires Playing(s) && c in {0, 1}
    ensures var s1 := s.(round := s.round.(windowOpen := true, contenders := [Contender(Phone(c), c, 0)]));
            Step(s, Buzz(c, s.nonce, 0), w) == ResolveWindow(s1, s1.round.key, w)
  {
    hide ResolveWindow, KeysFresh, GateIdle, PointsInv, DailyInv;
    SeatedPresent(s.reg);
  }

  lemma FreeLock(s: State)
    requires Inv(s) && s.phase == RoundActive
    ensures s.round.key !in s.locks
  {
    hide KeysFresh, GateIdle, PointsInv, DailyInv;
  }

  lemma StillEligible(s: State, p: PlayerId)
    requires p in s.reg.players && Present(s.reg, p) && !s.reg.players[p].guessed
    ensures p in Eligible(s.reg)
  {
  }

  lemma SoleWinner(x: Contender, shuffle: seq<Contender>, eligible: set<PlayerId>)
    ensures x.player in eligible ==> Winner([x], shuffle, eligible) == Some(x)
  {
    hide Winner;
    WinnerIsEarliest([x], shuffle, eligible);
    assert x in [x];
  }

  /** The karaoke phase that the first phone's right answer opens, with these votes cast. */
  ghost predicate Voting(s: State, votes: set<PlayerId>) {
    && Table(s, 0) && s.phase == Karaoke && s.gate.picker == Some(P) && s.gate.pick.None?
    && s.gate.pool == {P, Q} && s.gate.votes == votes && s.played == {1}
  }

  lemma AnswersRight(s: State, w: World)
    requires Judged(s, P)
    ensures var t := Step(s, Grade(Correct), w); Voting(t, {}) && t.gate.ready == s.gate.ready
  {
    hide Step, Voters, Inv;
    var t := Step(s, Grade(Correct), w);
    GateRests(s);
    AnswerOpens(s, P, w);
    TableKept(s, Grade(Correct), w, 0);
    SeatedPresent(t.reg);
  }

  lemma AnswerOpens(s: State, p: PlayerId, w: World)
    requires s.phase == Adjudicate && s.round.winner == Some(p) && p in s.reg.players && s.round.track.Some?
    ensures var t := Step(s, Grade(Correct), w);
            && t.phase == Karaoke && t.solo == s.solo && t.played == s.played + {s.round.track.value}
            && t.gate == s.gate.(picker := Some(p), pool := Voters(t.reg), votes := {})
            && (Seated(s.reg) ==> Seated(t.reg))
  {
    hide RoundPool, Voters, Scoring.PoolPoints;
  }

  lemma GateRests(s: State)
    requires Inv(s) && InPlay(s)
    ensures s.gate.pick.None?
  {
    hide KeysFresh, BuzzInv, PointsInv, DailyInv;
  }

  lemma Threshold(s: State)
    requires Seated(s.reg) && s.gate.pool == {P, Q} && s.gate.votes <= {P, Q} && s.gate.pct == 50
    ensures ThresholdMet(s) <==> s.gate.votes == {P, Q}
  {
    SeatedPresent(s.reg);
    assert ActiveVoters(s) == {P, Q};
    assert CountedVotes(s) == s.gate.votes;
    if s.gate.votes != {P, Q} {
      assert s.gate.votes < {P, Q};
      Fewer(s.gate.votes, {P, Q});
    }
  }

  lemma Fewer(a: set<PlayerId>, b: set<PlayerId>)
    requires a < b
    ensures |a| < |b|
  {
    var x :| x in b && x !in a;
    SubsetSize(a, b - {x});
  }

  /** The votes of the two phones: one is too few, two meet the threshold of a half. */
  lemma FirstVote(s: State, w: World)
    requires Voting(s, {}) && !s.gate.ready
    ensures var t := Step(s, Vote(1, s.nonce), w); Voting(t, {Q}) && !t.gate.ready
  {
    hide Inv, ThresholdMet;
    SeatedPresent(s.reg);
    Threshold(s.(gate := s.gate.(votes := {Q})));
    assert {} + {Q} == {Q};
    TableKept(s, Vote(1, s.nonce), w, 0);
  }

  lemma SecondVote(s: State, w: World)
    requires Voting(s, {Q}) && !s.gate.ready
    ensures var t := Step(s, Vote(0, s.nonce), w); Voting(t, {P, Q}) && t.gate.ready && ThresholdMet(t)
  {
    hide Inv, ThresholdMet;
    SeatedPresent(s.reg);
    Threshold(s.(gate := s.gate.(votes := {P, Q})));
    assert {Q} + {P} == {P, Q};
    TableKept(s, Vote(0, s.nonce), w, 0);
    Threshold(Step(s, Vote(0, s.nonce), w));
  }

  // ---- The way there ----

  lemma ToPlay(w: World) returns (run: Run)
    requires w.deal == {} && w.track == 0
    ensures var t := After(Fresh(0), run); Playing(t) && !t.gate.ready
  {
    hide After, Step, Inv, Playing, Seated;
    var s := Fresh(0);
    run := Arrive(0, w);
    var t := After(s, run);
    Opens(t, w);
    Then(s, run, StartGame, w);
    run := run + [(StartGame, w)];
    SelectPlays(After(s, run), w);
    Then(s, run, AdminSelect(A), w);
    run := run + [(AdminSelect(A), w)];
  }

  lemma ToKaraoke(w: World) returns (run: Run)
    requires w.deal == {} && w.track == 0
    ensures var t := After(Fresh(0), run); Voting(t, {}) && !t.gate.ready
  {
    hide After, Step, Playing, Judged, Voting;
    var s := Fresh(0);
    run := ToPlay(w);
    var t := After(s, run);
    BuzzWins(t, 0, w);
    Then(s, run, Buzz(0, t.nonce, 0), w);
    run := run + [(Buzz(0, t.nonce, 0), w)];
    AnswersRight(After(s, run), w);
    Then(s, run, Grade(Correct), w);
    run := run + [(Grade(Correct), w)];
  }

  lemma ToOneVote(w: World) returns (run: Run)
    requires w.deal == {} && w.track == 0
    ensures var t := After(Fresh(0), run); Voting(t, {Q}) && !t.gate.ready
  {
    hide After, Step, Voting;
    var s := Fresh(0);
    run := ToKaraoke(w);
    var t := After(s, run);
    FirstVote(t, w);
    Then(s, run, Vote(1, t.nonce), w);
    run := run + [(Vote(1, t.nonce), w)];
  }

  lemma ToTwoVotes(w: World) returns (run: Run)
    requires w.deal == {} && w.track == 0
    ensures var t := After(Fresh(0), run); Voting(t, {P, Q}) && t.gate.ready && ThresholdMet(t)
  {
    hide After, Step, Voting, ThresholdMet;
    var s := Fresh(0);
    run := ToOneVote(w);
    var t := After(s, run);
    SecondVote(t, w);
    Then(s, run, Vote(0, t.nonce), w);
    run := run + [(Vote(0, t.nonce), w)];
  }

  // ---- The exceptions to the gate ----

  /**
   * A run from a fresh engine can win the vote, end the game and then, by a
   * New Game, leave the flag without a picker.
   */
  lemma BackedCanFail(w: World) returns (s: State, run: Run)
    requires w.deal == {} && w.track == 0
    ensures Init(s)
    ensures var t := After(s, run);
            PickerBacked(t) && StaleReset(t, ResetToLobby) && !PickerBacked(Step(t, ResetToLobby, w))
  {
    hide After, Step, Inv, ThresholdMet;
    s := Fresh(0);
    FreshInit(0);
    run := ToTwoVotes(w);
    var t := After(s, run);
    GameEnds(t, w);
    Then(s, run, EndGame, w);
    run := run + [(EndGame, w)];
    Reachable(s, run);
    BackedStep(After(s, run), ResetToLobby, w);
  }

  lemma GameEnds(s: State, w: World)
    requires s.phase == Karaoke
    ensures Step(s, EndGame, w) == TransitionTo(s, GameOver)
  {
  }

  /** A run can put both halves on record and then reveal them back into KARAOKE. */
  lemma NotBothCanFail(w: World) returns (s: State, run: Run)
    requires w.deal == {} && w.track == 0
    ensures Init(s)
    ensures var t := After(s, run);
            NotBoth(t) && RevealWithBoth(t, AdminReveal) && !NotBoth(Step(t, AdminReveal, w))
  {
    hide After, Step, Inv, ThresholdMet;
    s := Fresh(0);
    FreshInit(0);
    run := ToTwoVotes(w);
    var t := After(s, run);
    PicksB(t, {P, Q}, w);
    Then(s, run, PlayerSelect(0, t.nonce, B), w);
    run := run + [(PlayerSelect(0, t.nonce, B), w)];
    Reachable(s, run);
    NotBothStep(After(s, run), AdminReveal, w);
  }

  /** With the vote won, the picker's choice of the untouched cell B starts the countdown. */
  lemma PicksB(s: State, votes: set<PlayerId>, w: World)
    requires Voting(s, votes) && s.gate.ready
    ensures var t := Step(s, PlayerSelect(0, s.nonce, B), w);
            t.phase == Transition && t.gate == s.gate.(pick := Some(B))
  {
    hide Inv, Unplayed, SelectCell;
    SeatedPresent(s.reg);
    AllUnplayed(s);
  }

  /** A run can reach a won vote that a refused selection then wipes out. */
  lemma WakefulCanFail(w: World) returns (s: State, run: Run)
    requires w.deal == {} && w.track == 0
    ensures Init(s)
    ensures var t, e := After(s, run), AdminSelect(Coord(9, 9));
            Wakeful(t) && RefusedSelect(t, e) && !Wakeful(Step(t, e, w))
  {
    hide After, Step, Inv, ThresholdMet, Unplayed;
    s := Fresh(0);
    FreshInit(0);
    run := ToTwoVotes(w);
    var t := After(s, run);
    AllUnplayed(t);
    Reachable(s, run);
    WakefulStep(t, AdminSelect(Coord(9, 9)), w);
  }

  /** A run can reach a vote that is one short of the threshold until the picker is kicked. */
  lemma KickCanLoseVote(w: World) returns (s: State, run: Run)
    requires w.deal == {} && w.track == 0
    ensures Init(s)
    ensures var t, e := After(s, run), Kick(P, false);
            Wakeful(t) && KickedPicker(t, e) && !Wakeful(Step(t, e, w))
  {
    hide After, Step, Inv, ThresholdMet;
    s := Fresh(0);
    FreshInit(0);
    run := ToOneVote(w);
    var t := After(s, run);
    Threshold(t);
    OthersSuffice(t);
    Reachable(s, run);
    WakefulStep(t, Kick(P, false), w);
  }

  lemma OthersSuffice(s: State)
    requires Voting(s, {Q})
    ensures ThresholdMet(LeavePools(s, P))
  {
    hide Inv;
    SeatedPresent(s.reg);
    var t := LeavePools(s, P);
    assert ActiveVoters(t) == {Q};
    assert CountedVotes(t) == {Q};
  }

  // ---- The exceptions about tracks ----

  /** The anonymous phone has answered wrongly, and the round goes on. */
  lemma ToWrongAnswer(w: World) returns (run: Run)
    requires w.deal == {} && w.track == 0
    ensures var t := After(Fresh(0), run);
            && Inv(t) && Curated(t) && t.board == TwoCells(0) && t.phase == RoundActive && t.round.track == Some(1)
            && t.played == {} && t.ledger.graded == {(1, Q)} && T.Barred(t, Q)
  {
    hide After, Step, Playing, Curated, T.Barred, Inv;
    var s := Fresh(0);
    run := ToPlay(w);
    var t := After(s, run);
    BuzzWins(t, 1, w);
    Then(s, run, Buzz(1, t.nonce, 0), w);
    run := run + [(Buzz(1, t.nonce, 0), w)];
    AnswersWrong(After(s, run), w);
    Then(s, run, Grade(Incorrect), w);
    run := run + [(Grade(Incorrect), w)];
    FreshInit(0);
    Reachable(s, run);
    InitSongs(s);
    AlwaysCurated(s, run);
  }

  lemma AnswersWrong(s: State, w: World)
    requires Judged(s, Q)
    ensures var t := Step(s, Grade(Incorrect), w);
            && t.board == s.board && t.phase == RoundActive && t.round.track == Some(1) && t.played == {}
            && t.ledger.graded == {(1, Q)} && T.Barred(t, Q)
  {
    hide Inv;
  }

  /**
   * A run can end a game in the middle of a round: the track stays live, and
   * whoever was graded on it is not barred.
   */
  lemma GameCanBeAbandoned(w: World) returns (s: State, run: Run)
    requires w.deal == {} && w.track == 0
    ensures Init(s)
    ensures var t, e := After(s, run), EndGame;
            && T.TrackInv(t) && T.GradedInv(t) && T.Abandons(t, e)
            && !T.TrackInv(Step(t, e, w)) && !T.GradedInv(Step(t, e, w))
  {
    hide After, Step, RoundInv, DailyInv, Curated, T.Barred;
    s := Fresh(0);
    FreshInit(0);
    run := ToWrongAnswer(w);
    var t := After(s, run);
    AnsweredInvs(t);
    assert (1, Q) in t.ledger.graded;
    T.TrackStep(t, EndGame, w);
    T.GradedStep(t, EndGame, w);
  }

  /** A run can wipe a graded attendee, by a second Hello of its phone. */
  lemma GradeCanBeForgotten(w: World) returns (s: State, run: Run)
    requires w.deal == {} && w.track == 0
    ensures Init(s)
    ensures var t, e := After(s, run), Hello(1, Mobile, None);
            T.GradedInv(t) && T.Forgets(t, e) && !T.GradedInv(Step(t, e, w))
  {
    hide After, Step, RoundInv, DailyInv, Curated, T.Barred;
    s := Fresh(0);
    FreshInit(0);
    run := ToWrongAnswer(w);
    var t := After(s, run);
    AnsweredInvs(t);
    assert (1, Q) in t.ledger.graded;
    T.GradedStep(t, Hello(1, Mobile, None), w);
  }

  lemma AnsweredInvs(t: State)
    requires t.board == TwoCells(0) && t.phase == RoundActive && t.round.track == Some(1)
    requires t.played == {} && t.ledger.graded == {(1, Q)} && T.Barred(t, Q)
    ensures T.TrackInv(t) && T.GradedInv(t) && WellFormed(t.board)
  {
    assert 1 in t.board.tracks[A];
    assert OnBoard(t.board, 1);
    FreshInit(0);
  }

  // ---- The mode lock and the registry ----

  /** A run can start Solo Karaoke, and admin.reveal then breaks the mode lock. */
  lemma ModeLockCanFail(w: World) returns (s: State, run: Run)
    ensures Init(s)
    ensures var t, e := After(s, run), AdminReveal;
            ModeLocked(t) && t.solo && Unguarded(t, e) && !ModeLocked(Step(t, e, w))
  {
    hide After, Step, Inv;
    s := Fresh(0);
    FreshInit(0);
    run := [(SoloPlay(true), w)];
    assert run == [] + [(SoloPlay(true), w)];
    StartsAt(s);
    Then(s, [], SoloPlay(true), w);
    SoloBegins(s, w);
    ModeStep(After(s, run), AdminReveal, w);
  }

  lemma SoloBegins(s: State, w: World)
    requires s.phase == Lobby
    ensures Step(s, SoloPlay(true), w) == s.(solo := true)
  {
  }

  /** A run can bind a connection twice, which leaves a stale entry in the index. */
  lemma IndexCanFail(w: World) returns (s: State, run: Run)
    ensures Init(s)
    ensures var t, e := After(s, run), Hello(1, Mobile, Some(9));
            Consistent(t.reg) && !Consistent(Step(t, e, w).reg)
  {
    hide After, Step, Inv, Consistent;
    s := Fresh(0);
    FreshInit(0);
    run := Arrive(0, w);
    var t := After(s, run);
    SeatedConsistent(t.reg);
    HelloConsistent(t.reg, 1, Mobile, Some(9));
    HelloResolves(t, 1, Some(9), w);
  }

  lemma SeatedConsistent(r: Reg)
    requires Seated(r)
    ensures Consistent(r)
  {
    assert 0 in r.byPlayer[P] && 1 in r.byPlayer[Q];
  }

  /** Marking a phone active leaves the index alone. */
  lemma HelloResolves(s: State, c: ConnId, fp: Option<nat>, w: World)
    ensures Consistent(Step(s, Hello(c, Mobile, fp), w).reg) == Consistent(Resolve(s.reg, c, Mobile, fp))
  {
    hide Resolve, Identity;
    ConsistentReads(Resolve(s.reg, c, Mobile, fp), Step(s, Hello(c, Mobile, fp), w).reg);
  }

  lemma ConsistentReads(r: Reg, u: Reg)
    requires u == r.(players := u.players) && u.players.Keys == r.players.Keys
    ensures Consistent(u) == Consistent(r)
  {
    assert forall p :: p in u.players <==> p in r.players;
  }

  // ---- The overwritten offer ----

  /** A game with both cells flagged for their second visit; `visits` and `played` say how far it is. */
  ghost predicate Flagged(s: State, visits: map<Coord, nat>, played: set<TrackId>) {
    && Table(s, 2) && s.dd.trigger == map[A := 2, B := 2] && s.dd.lastScorer.None? && s.ledger.performed == []
    && s.dd.visits == visits && s.played == played
  }

  lemma SomeLeft(s: State, left: set<TrackId>)
    requires s.board == TwoCells(2) && left == s.board.playable - s.played
    ensures Unplayed(s.board, s.played, A) == (if 1 in left then [1] else []) + (if 2 in left then [2] else [])
    ensures Unplayed(s.board, s.played, B) == (if 3 in left then [3] else []) + (if 4 in left then [4] else [])
  {
    assert s.board.tracks[A] == [1, 2] && s.board.tracks[B] == [3, 4];
    assert [1, 2][1..] == [2] && [3, 4][1..] == [4] && [2][1..] == [] && [4][1..] == [];
    assert Filter([2], left) == if 2 in left then [2] + Filter([], left) else Filter([], left);
    assert Filter([4], left) == if 4 in left then [4] + Filter([], left) else Filter([], left);
  }

  lemma FlagsDealt(s: State, w: World)
    requires Table(s, 2) && s.phase == Lobby && s.played == {} && w.deal == {A, B}
    requires s.dd.lastScorer.None? && s.ledger.performed == []
    ensures var t := Step(s, StartGame, w);
            Flagged(t, map[], {}) && t.phase == BoardUp && t.dd.offer == s.dd.offer && t.dd.bucket == s.dd.bucket
  {
    hide Inv, Unplayed;
    SomeLeft(s, {1, 2, 3, 4});
    assert Dealable(s) == {A, B};
    assert ValidDeal(s, {A, B}) by {
      assert |{A, B}| == 2;
      assert forall x :: x in {A, B} ==> Of({A, B}, s.board, CategoryOf(s.board, x)) <= {A, B};
    }
    var flags: map<Coord, nat> := map c | c in w.deal :: 2;
    assert flags == map[A := 2, B := 2];
    TableKept(s, StartGame, w, 2);
  }

  /** The first visit of a cell plays its first track, and the host ends the round. */
  lemma FirstVisit(s: State, c: Coord, x: TrackId, w: World)
    requires Flagged(s, s.dd.visits, s.played) && c in {A, B} && c !in s.dd.visits && !Busy(s) && w.track == 0
    requires Unplayed(s.board, s.played, c) != [] && Unplayed(s.board, s.played, c)[0] == x
    ensures var t := Step(s, AdminSelect(c), w);
            && Flagged(t, s.dd.visits[c := 1], s.played) && t.phase == RoundActive && t.round.track == Some(x)
            && t.dd.offer == s.dd.offer && t.dd.bucket == s.dd.bucket
  {
    hide Inv, Step, Unplayed, SelectCell, StartTrack, Seated;
    var s1 := Visit(DropPick(s), c);
    SelectOpens(s, c, w);
    TrackStarts(s1, c, x, w.now);
    GuessesCleared(s.reg);
    TableKept(s, AdminSelect(c), w, 2);
  }

  lemma GuessesCleared(r: Reg)
    requires Seated(r)
    ensures Seated(SetGuessed(r, r.players.Keys, false))
  {
  }

  lemma SelectOpens(s: State, c: Coord, w: World)
    requires !Busy(s) && Unplayed(s.board, s.played, c) != []
    ensures var s1 := Visit(DropPick(s), c);
            Step(s, AdminSelect(c), w) == if Fires(s1, c) then BeginOffer(s1, c, w)
                                   else StartTrack(s1, c, Pick(Unplayed(s.board, s.played, c), w.track), w.now)
  {
    hide BeginOffer, StartTrack, Unplayed, Fires;
  }

  lemma TrackStarts(s: State, c: Coord, x: TrackId, now: int)
    ensures var t := StartTrack(s, c, x, now);
            && t.phase == RoundActive && t.round.track == Some(x) && t.played == s.played && t.dd == s.dd
            && t.reg == SetGuessed(s.reg, s.reg.players.Keys, false) && t.gate == s.gate && t.solo == s.solo
            && t.ledger.performed == s.ledger.performed
  {
    hide SetGuessed;
  }

  lemma HostEnds(s: State, x: TrackId, w: World)
    requires Flagged(s, s.dd.visits, s.played) && s.phase == RoundActive && s.round.track == Some(x)
    ensures var t := Step(s, EndRound, w);
            Flagged(t, s.dd.visits, s.played + {x}) && t.phase == BoardUp && t.round.track.None?
            && t.dd.offer == s.dd.offer && t.dd.bucket == s.dd.bucket
  {
    hide Inv, SkipDaily;
    TableKept(s, EndRound, w, 2);
  }

  /** The second visit offers a Daily Double to the first phone. */
  lemma SecondVisit(s: State, w: World)
    requires Flagged(s, map[A := 1], {1}) && s.phase == BoardUp && s.round.track.None? && w.player == 0
    ensures var t := Step(s, AdminSelect(A), w);
            && Flagged(t, map[A := 2], {1}) && t.phase == DailyDouble && t.round.track.None?
            && t.dd.offer == Some(Offer(A, P, [])) && t.dd.bucket == s.dd.bucket
  {
    hide Inv, Step, Unplayed, SelectCell, BeginOffer, Seated;
    SomeLeft(s, {2, 3, 4});
    SelectOpens(s, A, w);
    FirstPhoneOffered(Visit(DropPick(s), A), w);
    TableKept(s, AdminSelect(A), w, 2);
  }

  lemma FirstPhoneOffered(s: State, w: World)
    requires Seated(s.reg) && s.dd.lastScorer.None? && w.player == 0
    ensures BeginOffer(s, A, w) == OpenOffer(s, A, P)
  {
    hide PresentMobile, StartCellNormally, OpenOffer;
    BothPhones(s.reg);
  }

  lemma BothPhones(r: Reg)
    requires Seated(r)
    ensures Filter(r.roster, PresentMobile(r)) == [P, Q]
  {
    SeatedPresent(r);
    assert [P, Q][1..] == [Q] && [Q][1..] == [];
    assert Filter([Q], {P, Q}) == [Q] + Filter([], {P, Q});
  }

  /** Accepting draws both songs of the bucket. */
  lemma SongsDrawn(s: State, w: World)
    requires Flagged(s, s.dd.visits, s.played) && s.phase == DailyDouble
    requires s.dd.offer == Some(Offer(A, P, [])) && s.dd.bucket == [10, 11] && w.songs == []
    ensures var t := Step(s, Decide(0, s.nonce, true), w);
            && Flagged(t, s.dd.visits, s.played) && t.phase == DailyDouble && t.round.track == s.round.track
            && t.dd.offer == Some(Offer(A, P, [10, 11])) && t.dd.bucket == []
  {
    hide Inv, Decline;
    SeatedPresent(s.reg);
    assert multiset(w.songs) != multiset([10, 11]) by {
      assert 10 in multiset([10, 11]) && 10 !in multiset(w.songs);
    }
    assert [10, 11][..2] == [10, 11] && [10, 11][2..] == [];
    TableKept(s, Decide(0, s.nonce, true), w, 2);
  }

  lemma HostReveals(s: State, w: World)
    requires Flagged(s, s.dd.visits, s.played) && s.phase == DailyDouble && s.round.track.None?
    ensures var t := Step(s, AdminReveal, w);
            && Flagged(t, s.dd.visits, s.played) && t.phase == Karaoke
            && t.dd.offer == s.dd.offer && t.dd.bucket == s.dd.bucket
  {
    hide Inv, Voters;
    TableKept(s, AdminReveal, w, 2);
  }

  predicate Scripted(w: World) {
    w.deal == {A, B} && w.track == 0 && w.player == 0 && w.songs == []
  }

  /** Songs drawn for an offer on cell A, with both cells on their second visit. */
  lemma ToDrawnSongs(w: World) returns (run: Run)
    requires Scripted(w)
    ensures var t := After(Fresh(2), run);
            && Flagged(t, map[A := 2], {1}) && t.phase == DailyDouble && t.round.track.None?
            && t.dd.offer == Some(Offer(A, P, [10, 11])) && t.dd.bucket == []
  {
    hide After, Step, Inv, Flagged, Table, Unplayed;
    var s := Fresh(2);
    run := Arrive(2, w);
    FlagsDealt(After(s, run), w);
    Then(s, run, StartGame, w);
    run := run + [(StartGame, w)];
    FlaggedLeft(After(s, run), map[], {});
    FirstVisit(After(s, run), A, 1, w);
    assert map[][A := 1] == map[A := 1];
    Then(s, run, AdminSelect(A), w);
    run := run + [(AdminSelect(A), w)];
    FlaggedLeft(After(s, run), map[A := 1], {});
    HostEnds(After(s, run), 1, w);
    assert {} + {1} == {1};
    Then(s, run, EndRound, w);
    run := run + [(EndRound, w)];
    SecondVisit(After(s, run), w);
    Then(s, run, AdminSelect(A), w);
    run := run + [(AdminSelect(A), w)];
    FlaggedLeft(After(s, run), map[A := 2], {1});
    var t := After(s, run);
    SongsDrawn(t, w);
    Then(s, run, Decide(0, t.nonce, true), w);
    run := run + [(Decide(0, t.nonce, true), w)];
  }

  lemma FlaggedLeft(s: State, visits: map<Coord, nat>, played: set<TrackId>)
    requires Flagged(s, visits, played)
    ensures s.dd.visits == visits && s.played == played && Table(s, 2)
    ensures 1 !in played ==> Unplayed(s.board, s.played, A) != [] && Unplayed(s.board, s.played, A)[0] == 1
    ensures 3 !in played ==> Unplayed(s.board, s.played, B) != [] && Unplayed(s.board, s.played, B)[0] == 3
    ensures 4 !in played ==> Unplayed(s.board, s.played, B) != []
  {
    hide Inv, Unplayed;
    SomeLeft(s, s.board.playable - s.played);
  }

  /** A run can reveal over an offer whose songs are drawn, and then open another one over it: the songs are lost. */
  lemma SongsCanBeLost(w: World) returns (s: State, run: Run)
    requires Scripted(w)
    ensures Init(s)
    ensures var t, e := After(s, run), AdminSelect(B);
            Conserved(t) && Overwrites(t, e) && !Conserved(Step(t, e, w))
  {
    hide After, Step, Inv, Flagged, Table, Unplayed, Overwrites, Conserved;
    s := Fresh(2);
    FreshInit(2);
    run := ToDrawnSongs(w);
    FlaggedLeft(After(s, run), map[A := 2], {1});
    HostReveals(After(s, run), w);
    Then(s, run, AdminReveal, w);
    run := run + [(AdminReveal, w)];
    FlaggedLeft(After(s, run), map[A := 2], {1});
    FirstVisit(After(s, run), B, 3, w);
    assert map[A := 2][B := 1] == map[A := 2, B := 1];
    Then(s, run, AdminSelect(B), w);
    run := run + [(AdminSelect(B), w)];
    FlaggedLeft(After(s, run), map[A := 2, B := 1], {1});
    HostEnds(After(s, run), 3, w);
    Then(s, run, EndRound, w);
    run := run + [(EndRound, w)];
    var t := After(s, run);
    FlaggedLeft(t, map[A := 2, B := 1], {1} + {3});
    OfferOverwritten(t);
    ConservedStep(t, AdminSelect(B), w);
  }

  lemma OfferOverwritten(s: State)
    requires Flagged(s, map[A := 2, B := 1], {1} + {3}) && s.phase == BoardUp
    requires s.dd.offer == Some(Offer(A, P, [10, 11])) && s.dd.bucket == []
    ensures Conserved(s) && Overwrites(s, AdminSelect(B)) && NoDup(s.board.bucket)
  {
    hide Inv, Unplayed, PresentMobile;
    FlaggedLeft(s, map[A := 2, B := 1], {1} + {3});
    BothPhones(s.reg);
    assert multiset(s.board.bucket) == multiset{10, 11};
  }

  // ---- The stale flag, from the first game into the second ----

  /** In the second game nobody votes, no track ends and no threshold moves. */
  function SecondGame(buzz: nat, pick: nat): seq<Event> {
    [StartGame, AdminSelect(A), Buzz(0, buzz, 0), Grade(Correct), PlayerSelect(0, pick, B)]
  }

  lemma NewGame(w: World) returns (run: Run)
    requires w.deal == {} && w.track == 0
    ensures var t := After(Fresh(0), run);
            && Table(t, 0) && t.phase == Lobby && t.gate.picker.None? && t.gate.pick.None? && t.gate.votes == {}
            && t.gate.ready && t.played == {} && t.ledger.graded == {}
  {
    hide After, Step, Inv, ThresholdMet, Seated, OnReset;
    var s := Fresh(0);
    run := ToTwoVotes(w);
    var t := After(s, run);
    GameEnds(t, w);
    Then(s, run, EndGame, w);
    run := run + [(EndGame, w)];
    TableKept(t, EndGame, w, 0);
    var u := After(s, run);
    ResetsTable(u, w);
    Then(s, run, ResetToLobby, w);
    run := run + [(ResetToLobby, w)];
    TableKept(u, ResetToLobby, w, 0);
  }

  lemma ResetsTable(s: State, w: World)
    requires s.phase == GameOver && Seated(s.reg) && s.board == TwoCells(0) && s.played == {1}
    ensures var t := Step(s, ResetToLobby, w);
            && t.phase == Lobby && Seated(t.reg) && t.solo == s.solo && t.played == {} && t.ledger.graded == {}
            && t.gate == s.gate.(picker := None, pool := {}, votes := {})
  {
    assert 1 in s.board.tracks[A];
    assert OnBoard(s.board, 1);
  }

  /**
   * One run from a fresh engine: the vote won in a first game, then End Game and
   * New Game, and in the second game the winner of the first round leaves its
   * karaoke phase by picking alone, without a vote, a track end or a change of
   * the threshold.
   */
  lemma StaleFlagSkipsVote(w: World) returns (s: State, first: Run, second: Run, buzz: nat, pick: nat)
    requires w.deal == {} && w.track == 0
    ensures Init(s) && After(s, first).phase == Lobby
    ensures |second| == 5 && forall i :: 0 <= i < 5 ==> second[i] == (SecondGame(buzz, pick)[i], w)
    ensures var t := After(s, first + second[..4]); t.phase == Karaoke && t.gate.votes == {} && t.gate.pick.None?
    ensures After(s, first + second).phase == Transition
  {
    hide After, Step, Inv, Playing, Judged, Opened, Table;
    s := Fresh(0);
    FreshInit(0);
    first := NewGame(w);
    var run := first;
    Opens(After(s, run), w);
    Then(s, run, StartGame, w);
    run := run + [(StartGame, w)];
    SelectPlays(After(s, run), w);
    Then(s, run, AdminSelect(A), w);
    run := run + [(AdminSelect(A), w)];
    buzz := After(s, run).nonce;
    BuzzWins(After(s, run), 0, w);
    Then(s, run, Buzz(0, buzz, 0), w);
    run := run + [(Buzz(0, buzz, 0), w)];
    AnswersRight(After(s, run), w);
    Then(s, run, Grade(Correct), w);
    run := run + [(Grade(Correct), w)];
    pick := After(s, run).nonce;
    PicksB(After(s, run), {}, w);
    Then(s, run, PlayerSelect(0, pick, B), w);
    second := [(StartGame, w), (AdminSelect(A), w), (Buzz(0, buzz, 0), w), (Grade(Correct), w),
               (PlayerSelect(0, pick, B), w)];
    assert first + second[..4] == run;
    assert first + second == run + [(PlayerSelect(0, pick, B), w)];
  }
}
