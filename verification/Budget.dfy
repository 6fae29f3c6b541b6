/**
 * The Daily Double budget: performances, the pending offer and the armed cells
 * together never exceed the number the board was configured with, an arming
 * opens at most one offer, and a cell that takes over from a declined one
 * fires on its very next selection, whatever happens in between.
 */
module Budget {
  import opened Common
  import opened EngineState
  import opened Frames
  import opened Books

  /** Flagged cells whose trigger visit is still to come. */
  function Armed(trigger: map<Coord, nat>, visits: map<Coord, nat>): set<Coord> {
    set c | c in trigger && VisitsOf(visits, c) < trigger[c]
  }

  /** Flagged cells that have had their trigger visit. */
  function Fired(trigger: map<Coord, nat>, visits: map<Coord, nat>): set<Coord> {
    set c | c in trigger && trigger[c] <= VisitsOf(visits, c)
  }

  function Pending(offer: Option<Offer>): nat {
    if offer.Some? then 1 else 0
  }

  ghost predicate BudgetInv(s: State) {
    && |s.dd.trigger.Keys| <= s.board.doubles
    && s.ledger.performances + Pending(s.dd.offer) <= |Fired(s.dd.trigger, s.dd.visits)|
    && (forall c :: c in s.dd.trigger ==> 0 < s.dd.trigger[c])
    && (s.dd.offer.Some? ==> s.dd.offer.value.cell in Fired(s.dd.trigger, s.dd.visits))
    && (s.phase == Lobby ==> s.ledger.performances == 0 && s.dd.offer.None?)
  }

  /** The budget itself. */
  lemma BudgetHolds(s: State)
    requires BudgetInv(s)
    ensures s.ledger.performances + Pending(s.dd.offer) + |Armed(s.dd.trigger, s.dd.visits)| <= s.board.doubles
  {
    var armed, fired := Armed(s.dd.trigger, s.dd.visits), Fired(s.dd.trigger, s.dd.visits);
    assert armed + fired == s.dd.trigger.Keys && armed !! fired;
    assert |armed + fired| == |armed| + |fired|;
  }

  // ---- What each kind of move does to the flags ----

  /** A visit fires a cell exactly when it is due; nothing that has fired is armed again. */
  lemma VisitMoves(trigger: map<Coord, nat>, visits: map<Coord, nat>, c: Coord)
    ensures var before, after := Fired(trigger, visits), Fired(trigger, visits[c := VisitsOf(visits, c) + 1]);
            if c in trigger && trigger[c] == VisitsOf(visits, c) + 1
            then after == before + {c} && c !in before && |after| == |before| + 1
            else after == before
  {
    if c in trigger && trigger[c] == VisitsOf(visits, c) + 1 {
      assert Fired(trigger, visits[c := VisitsOf(visits, c) + 1]) == Fired(trigger, visits) + {c};
    }
  }

  lemma UnflagMoves(trigger: map<Coord, nat>, visits: map<Coord, nat>, c: Coord)
    ensures Fired(trigger - {c}, visits) == Fired(trigger, visits) - {c}
    ensures |(trigger - {c}).Keys| == if c in trigger then |trigger.Keys| - 1 else |trigger.Keys|
    ensures c in Fired(trigger, visits) ==>
              c in trigger && |Fired(trigger - {c}, visits)| == |Fired(trigger, visits)| - 1
    ensures c !in Fired(trigger, visits) ==> Fired(trigger - {c}, visits) == Fired(trigger, visits)
  {
    assert (trigger - {c}).Keys == trigger.Keys - {c};
  }

  lemma FlagMoves(trigger: map<Coord, nat>, visits: map<Coord, nat>, n: Coord)
    requires n !in trigger
    ensures var after := trigger[n := VisitsOf(visits, n) + 1];
            Fired(after, visits) == Fired(trigger, visits) && |after.Keys| == |trigger.Keys| + 1
  {
    assert trigger[n := VisitsOf(visits, n) + 1].Keys == trigger.Keys + {n};
  }

  lemma SelectsBudget(s: State, c: Coord, t: State)
    requires BudgetInv(s) && Selects(s, c, t)
    ensures BudgetInv(t)
  {
    hide Fired, HasContestant;
    VisitMoves(s.dd.trigger, s.dd.visits, c);
    if Due(s, c) {
      UnflagMoves(s.dd.trigger, t.dd.visits, c);
      DueFired(s, c, t.dd.visits);
    }
  }

  lemma DueFired(s: State, c: Coord, visits: map<Coord, nat>)
    requires Due(s, c) && visits == s.dd.visits[c := VisitsOf(s.dd.visits, c) + 1]
    ensures c in Fired(s.dd.trigger, visits)
  {
  }

  /** Declining frees the declined cell's share of the budget and at most re-spends it. */
  lemma DeclinesBudget(s: State, t: State)
    requires BudgetInv(s) && Declines(s, t)
    ensures BudgetInv(t)
  {
    hide Fired;
    var cell := s.dd.offer.value.cell;
    UnflagMoves(s.dd.trigger, s.dd.visits, cell);
    if t.dd.trigger != s.dd.trigger - {cell} {
      hide Rearmed;
      var n :| n in t.dd.trigger && Rearmed(s, cell, t.dd.trigger, n);
      RearmedFlags(s, cell, t.dd.trigger, n);
    }
  }

  lemma RearmedFlags(s: State, cell: Coord, trigger: map<Coord, nat>, n: Coord)
    requires Rearmed(s, cell, trigger, n)
    ensures Fired(trigger, s.dd.visits) == Fired(s.dd.trigger - {cell}, s.dd.visits)
    ensures |trigger.Keys| == |(s.dd.trigger - {cell}).Keys| + 1
    ensures (forall c :: c in s.dd.trigger ==> 0 < s.dd.trigger[c]) ==> forall c :: c in trigger ==> 0 < trigger[c]
  {
    hide Fired;
    FlagMoves(s.dd.trigger - {cell}, s.dd.visits, n);
  }

  lemma BudgetMoves(s: State, e: Event, t: State)
    requires BudgetInv(s) && Moves(s, e, t)
    ensures BudgetInv(t)
  {
    hide Fired, Counted, Selects, Declines;
    if Counted(s, e).Some? {
      SelectsBudget(s, Counted(s, e).value, t);
    } else if Declines(s, t) {
      DeclinesBudget(s, t);
    }
  }

  lemma GamesBudget(s: State, e: Event, w: World)
    requires BudgetInv(s) && (NewGame(s, e) || Deals(s, e, w))
    ensures BudgetInv(Step(s, e, w))
  {
    hide OnBoard, ClearScores, Dealable, Balanced;
    var t := Step(s, e, w);
    assert Fired(t.dd.trigger, t.dd.visits) == {};
    if e.StartGame? {
      assert t.dd.trigger.Keys == w.deal;
    }
  }

  /** Every command keeps the budget, over any number of games. */
  lemma BudgetStep(s: State, e: Event, w: World)
    requires BudgetInv(s)
    ensures BudgetInv(Step(s, e, w))
  {
    hide Step, BudgetInv, Moves, NewGame, Deals;
    if NewGame(s, e) || Deals(s, e, w) {
      GamesBudget(s, e, w);
    } else {
      BooksStep(s, e, w);
      BudgetMoves(s, e, Step(s, e, w));
    }
  }

  lemma FreshBudget(s: State)
    requires Init(s)
    ensures BudgetInv(s)
  {
  }

  lemma {:induction false} BudgetRuns(s: State, run: Run)
    requires BudgetInv(s)
    ensures BudgetInv(After(s, run)) && After(s, run).board == s.board
    decreases |run|
  {
    hide Step, BudgetInv;
    if run != [] {
      BudgetStep(s, run[0].0, run[0].1);
      StepFramed(s, run[0].0, run[0].1);
      BudgetRuns(Step(s, run[0].0, run[0].1), run[1..]);
    }
  }

  /** In every state a run reaches: what was performed, what is pending and what is armed stay within the count. */
  lemma BudgetAlways(s: State, run: Run)
    requires Init(s)
    ensures var t := After(s, run);
            t.ledger.performances + Pending(t.dd.offer) + |Armed(t.dd.trigger, t.dd.visits)| <= s.board.doubles
  {
    hide After, BudgetInv, Armed;
    FreshBudget(s);
    BudgetRuns(s, run);
    BudgetHolds(After(s, run));
  }

  // ---- A replacement fires on its next selection ----

  lemma DueMoves(s: State, e: Event, t: State, n: Coord)
    requires BudgetInv(s) && Moves(s, e, t)
    requires Due(s, n) && Counted(s, e) != Some(n)
    ensures Due(t, n)
  {
    hide HasContestant, Counted, Draws, Performs;
    if Declines(s, t) && Counted(s, e).None? {
      var cell := s.dd.offer.value.cell;
      assert cell in Fired(s.dd.trigger, s.dd.visits);
      assert cell != n;
    } else if Counted(s, e).None? && (Draws(s, t) || (e.Choose? && Performs(s, e.song, t))) {
      OfferFlags(s, e, t);
    }
  }

  lemma OfferFlags(s: State, e: Event, t: State)
    requires Draws(s, t) || (e.Choose? && Performs(s, e.song, t))
    ensures t.dd.trigger == s.dd.trigger && t.dd.visits == s.dd.visits
  {
  }

  /**
   * Another cell's business leaves a cell that is due due, except exactly a
   * new deal, and a New Game that zeroes its visits.
   */
  lemma DueStep(s: State, e: Event, w: World, n: Coord)
    requires BudgetInv(s) && Due(s, n) && Counted(s, e) != Some(n)
    ensures Due(Step(s, e, w), n) <==> !(Deals(s, e, w) || (NewGame(s, e) && VisitsOf(s.dd.visits, n) > 0))
  {
    if NewGame(s, e) || Deals(s, e, w) {
      hide OnBoard, ClearScores, ValidDeal, BudgetInv;
    } else {
      hide Step, BudgetInv, Moves, Due;
      BooksStep(s, e, w);
      DueMoves(s, e, Step(s, e, w), n);
    }
  }

  /** A command that flags a cell without dealing anew has declined an offer, and leaves the cell due. */
  lemma NewFlagIsDue(s: State, e: Event, w: World, n: Coord)
    requires !Deals(s, e, w) && n !in s.dd.trigger && n in Step(s, e, w).dd.trigger
    ensures Due(Step(s, e, w), n) && Deciding(s) && Step(s, e, w).dd.offer.None?
  {
    if NewGame(s, e) {
      hide OnBoard, ClearScores;
    } else {
      hide Step, Moves, Due, NewGame, Deals;
      BooksStep(s, e, w);
      NewFlagMoves(s, e, Step(s, e, w), n);
    }
  }

  lemma NewFlagMoves(s: State, e: Event, t: State, n: Coord)
    requires Moves(s, e, t) && n !in s.dd.trigger && n in t.dd.trigger
    ensures Due(t, n) && Deciding(s) && t.dd.offer.None?
  {
    hide HasContestant, Counted, Draws, Performs;
    if Counted(s, e).None? && (Draws(s, t) || (e.Choose? && Performs(s, e.song, t))) {
      OfferFlags(s, e, t);
    }
  }

  /** A declined offer hands its flag on whenever another live, unflagged cell exists. */
  lemma DeclineHandsOn(s: State, w: World)
    requires BudgetInv(s) && Deciding(s)
    requires Heirs(s, s.dd.offer.value.cell) * (set c | c in s.board.grid) != {}
    ensures exists n :: n in Heirs(s, s.dd.offer.value.cell) && n !in s.dd.trigger && Due(Decline(s, w), n)
  {
    hide Decline, Unplayed;
    var cell := s.dd.offer.value.cell;
    DeclineBooks(s, w);
    var r := Returned(s);
    assert Heirs(r, cell) == Heirs(s, cell);
    var c :| c in Heirs(s, cell) && c in s.board.grid;
    assert c in Filter(s.board.grid, Heirs(r, cell));
    var n := Pick(Filter(s.board.grid, Heirs(r, cell)), w.cell);
    DeclineVisits(s, w);
    assert n in Heirs(s, cell) && Due(Decline(s, w), n);
  }

  lemma DeclineVisits(s: State, w: World)
    ensures Decline(s, w).dd.visits == s.dd.visits
  {
    hide Decline;
    DeclineBooks(s, w);
  }

  /** A run within one game that counts no visit of `n`. */
  ghost predicate Awaits(s: State, run: Run, n: Coord)
    decreases |run|
  {
    run != [] ==>
      var (e, w) := run[0];
      && Counted(s, e) != Some(n) && !NewGame(s, e) && !Deals(s, e, w)
      && Awaits(Step(s, e, w), run[1..], n)
  }

  lemma {:induction false} DueWaits(s: State, run: Run, n: Coord)
    requires BudgetInv(s) && Due(s, n) && Awaits(s, run, n)
    ensures BudgetInv(After(s, run)) && Due(After(s, run), n)
    decreases |run|
  {
    hide Step, BudgetInv, Due, NewGame, Deals, Counted;
    if run != [] {
      var (e, w) := run[0];
      BudgetStep(s, e, w);
      DueStep(s, e, w, n);
      DueWaits(Step(s, e, w), run[1..], n);
    }
  }

  /** What a counted selection of a due cell does. */
  lemma DueFires(s: State, e: Event, w: World, n: Coord)
    requires Due(s, n) && Counted(s, e) == Some(n)
    ensures var t := Step(s, e, w);
            if HasContestant(s) then
              && t.phase == DailyDouble && t.dd.offer.Some?
              && t.dd.offer.value.cell == n && t.dd.offer.value.candidates == []
            else t.phase == RoundActive && n !in t.dd.trigger && t.dd.offer == s.dd.offer
  {
    hide Step, HasContestant, Selected, Unplayed;
    CountedPlays(s, e, w);
    BooksStep(s, e, w);
  }

  /**
   * The cell that takes over from a declined one: after any commands that count
   * no visit of it, its very next counted selection opens an offer, or plays it
   * normally if nobody is there to take one.
   */
  lemma ReplacementFiresNext(s: State, d: Event, dw: World, n: Coord, run: Run, e: Event, w: World)
    requires BudgetInv(s) && !Deals(s, d, dw)
    requires n !in s.dd.trigger && n in Step(s, d, dw).dd.trigger
    requires Awaits(Step(s, d, dw), run, n)
    requires Counted(After(Step(s, d, dw), run), e) == Some(n)
    ensures var before := After(Step(s, d, dw), run);
            var t := Step(before, e, w);
            if HasContestant(before) then
              && t.phase == DailyDouble && t.dd.offer.Some?
              && t.dd.offer.value.cell == n && t.dd.offer.value.candidates == []
            else t.phase == RoundActive && n !in t.dd.trigger && t.dd.offer == before.dd.offer
  {
    hide Step, BudgetInv, Due, Deals, NewGame, Counted, HasContestant, Awaits;
    NewFlagIsDue(s, d, dw, n);
    BudgetStep(s, d, dw);
    DueWaits(Step(s, d, dw), run, n);
    DueFires(After(Step(s, d, dw), run), e, w, n);
  }

  // ---- One offer an arming ----

  predicate IsArmed(s: State, n: Coord) {
    n in Armed(s.dd.trigger, s.dd.visits)
  }

  /** A command that arms `n` anew. */
  predicate Arms(s: State, e: Event, w: World, n: Coord) {
    !IsArmed(s, n) && IsArmed(Step(s, e, w), n)
  }

  /** Only a deal, a New Game and a declined offer arm anything. */
  lemma WhatArms(s: State, e: Event, w: World, n: Coord)
    requires BudgetInv(s) && Arms(s, e, w, n)
    ensures Deals(s, e, w) || NewGame(s, e) || (Deciding(s) && n !in s.dd.trigger && Step(s, e, w).dd.offer.None?)
  {
    hide Step, Moves, BudgetInv, NewGame, Deals;
    if !Deals(s, e, w) && !NewGame(s, e) {
      BooksStep(s, e, w);
      ArmsMoves(s, e, Step(s, e, w), n);
    }
  }

  lemma ArmsMoves(s: State, e: Event, t: State, n: Coord)
    requires Moves(s, e, t) && !IsArmed(s, n) && IsArmed(t, n)
    ensures Deciding(s) && n !in s.dd.trigger && t.dd.offer.None?
  {
    hide HasContestant, Counted, Draws, Performs;
    if Counted(s, e).None? && (Draws(s, t) || (e.Choose? && Performs(s, e.song, t))) {
      OfferFlags(s, e, t);
    }
  }

  predicate OffersAt(s: State, e: Event, n: Coord) {
    OpensOffer(s, e) && Counted(s, e) == Some(n)
  }

  /** An offer opens only at an armed cell, and spends its arming. */
  lemma OfferSpends(s: State, e: Event, w: World, n: Coord)
    requires OffersAt(s, e, n)
    ensures IsArmed(s, n) && !IsArmed(Step(s, e, w), n)
  {
    hide Step, HasContestant, Selected, Unplayed;
    CountedPlays(s, e, w);
    BooksStep(s, e, w);
  }

  ghost function Offers(s: State, run: Run, n: Coord): nat
    decreases |run|
  {
    if run == [] then 0
    else (if OffersAt(s, run[0].0, n) then 1 else 0) + Offers(Step(s, run[0].0, run[0].1), run[1..], n)
  }

  ghost function Armings(s: State, run: Run, n: Coord): nat
    decreases |run|
  {
    if run == [] then 0
    else (if Arms(s, run[0].0, run[0].1, n) then 1 else 0) + Armings(Step(s, run[0].0, run[0].1), run[1..], n)
  }

  /** Over any run whatever, each arming of a cell opens at most one offer. */
  lemma {:induction false} FiresOnce(s: State, run: Run, n: Coord)
    ensures Offers(s, run, n) + (if IsArmed(After(s, run), n) then 1 else 0) <=
            Armings(s, run, n) + (if IsArmed(s, n) then 1 else 0)
    decreases |run|
  {
    hide Step, IsArmed, OffersAt;
    if run != [] {
      if OffersAt(s, run[0].0, n) {
        OfferSpends(s, run[0].0, run[0].1, n);
      }
      FiresOnce(Step(s, run[0].0, run[0].1), run[1..], n);
    }
  }
}
