/**
 * Dealing the Daily Doubles at Start Game: one a category a pass, categories
 * reshuffled each pass (server/internal/game/engine.go, assignDailyDoubles).
 */
module DailyDoubleDeal {
  import opened Common
  import opened EngineState

  /** The generator: the shuffle of each pass and the pick of each placement, all arbitrary. */
  datatype Rng = Rng(shuffle: nat -> seq<Category>, draw: nat -> nat)

  /** The cells that may be flagged. */
  function Eligible(b: Board, played: set<TrackId>): set<Coord> {
    set c | c in b.grid && |Unplayed(b, played, c)| >= 2
  }

  function Least(a: nat, b: nat): nat {
    if a < b then a else b
  }

  /** After `k` passes a category has `k` flags, or one on each of its cells if it has fewer. */
  predicate Level(flagged: set<Coord>, eligible: set<Coord>, b: Board, cat: Category, k: nat) {
    |Of(flagged, b, cat)| == Least(k, |Of(eligible, b, cat)|)
  }

  lemma OfInsert(flagged: set<Coord>, b: Board, c: Coord, cat: Category)
    requires c !in flagged
    ensures |Of(flagged + {c}, b, cat)| ==
            |Of(flagged, b, cat)| + (if CategoryOf(b, c) == cat then 1 else 0)
  {
    if CategoryOf(b, c) == cat {
      assert Of(flagged + {c}, b, cat) == Of(flagged, b, cat) + {c};
    } else {
      assert Of(flagged + {c}, b, cat) == Of(flagged, b, cat);
    }
  }

  lemma SameSizeSubset<T>(a: set<T>, b: set<T>)
    requires a <= b && |a| == |b|
    ensures a == b
  {
    if !(b <= a) {
      var x :| x in b && x !in a;
      SubsetSize(a, b - {x});
    }
  }

  lemma OfSubset(flagged: set<Coord>, eligible: set<Coord>, b: Board, cat: Category)
    requires flagged <= eligible
    ensures Of(flagged, b, cat) <= Of(eligible, b, cat)
    ensures |Of(flagged, b, cat)| <= |Of(eligible, b, cat)|
  {
    SubsetSize(Of(flagged, b, cat), Of(eligible, b, cat));
  }

  /** Categories that are all between two consecutive levels are balanced. */
  lemma LevelsBalance(flagged: set<Coord>, eligible: set<Coord>, b: Board, k: nat)
    requires flagged <= eligible
    requires forall c :: c in eligible ==>
               Level(flagged, eligible, b, CategoryOf(b, c), k) || Level(flagged, eligible, b, CategoryOf(b, c), k + 1)
    ensures Balanced(flagged, eligible, b)
  {
    forall x, y | x in eligible && y in eligible
                  && |Of(flagged, b, CategoryOf(b, x))| + 1 < |Of(flagged, b, CategoryOf(b, y))|
      ensures Of(eligible, b, CategoryOf(b, x)) <= flagged
    {
      OfSubset(flagged, eligible, b, CategoryOf(b, x));
      SameSizeSubset(Of(flagged, b, CategoryOf(b, x)), Of(eligible, b, CategoryOf(b, x)));
      assert Of(flagged, b, CategoryOf(b, x)) <= flagged;
    }
  }

  /** A pass without progress means that everything eligible is flagged. */
  lemma StuckMeansFull(flagged: set<Coord>, eligible: set<Coord>, b: Board, k: nat)
    requires flagged <= eligible
    requires forall c :: c in eligible ==>
               Level(flagged, eligible, b, CategoryOf(b, c), k) && Level(flagged, eligible, b, CategoryOf(b, c), k + 1)
    ensures flagged == eligible
  {
    forall c | c in eligible
      ensures c in flagged
    {
      OfSubset(flagged, eligible, b, CategoryOf(b, c));
      SameSizeSubset(Of(flagged, b, CategoryOf(b, c)), Of(eligible, b, CategoryOf(b, c)));
      assert c in Of(eligible, b, CategoryOf(b, c));
    }
  }

  /** What the table of categories holds: each one's eligible cells, and no empty entry. */
  ghost predicate Filed(byCategory: map<Category, seq<Coord>>, cells: seq<Coord>, eligible: set<Coord>,
                        b: Board) {
    && (forall cat, c :: cat in byCategory && c in byCategory[cat] ==>
          c in cells && c in eligible && CategoryOf(b, c) == cat)
    && (forall c :: c in cells && c in eligible ==> CategoryOf(b, c) in byCategory && c in byCategory[CategoryOf(b, c)])
    && (forall cat :: cat in byCategory ==> byCategory[cat] != [])
  }

  /** The scan of the grid that collects the eligible cells of each category. */
  method FileCells(b: Board, played: set<TrackId>)
    returns (byCategory: map<Category, seq<Coord>>)
    ensures Filed(byCategory, b.grid, Eligible(b, played), b)
  {
    byCategory := map[];
    for i := 0 to |b.grid|
      invariant Filed(byCategory, b.grid[..i], Eligible(b, played), b)
    {
      var c := b.grid[i];
      assert b.grid[..i + 1] == b.grid[..i] + [c];
      var left := [];
      if c in b.tracks {
        left := Collect(b.tracks[c], b.playable - played);
      }
      if |left| >= 2 {
        var cat := CategoryOf(b, c);
        byCategory := byCategory[cat := (if cat in byCategory then byCategory[cat] else []) + [c]];
        assert c in byCategory[cat];
      }
    }
    assert b.grid[..|b.grid|] == b.grid;
  }

  /** The keys of the table as a slice, in whatever order the map yields them. */
  method Keys(byCategory: map<Category, seq<Coord>>) returns (cats: seq<Category>)
    ensures NoDup(cats) && forall cat :: cat in cats <==> cat in byCategory
  {
    cats := [];
    var todo := byCategory.Keys;
    while todo != {}
      invariant todo <= byCategory.Keys && NoDup(cats)
      invariant forall cat :: cat in cats <==> cat in byCategory && cat !in todo
      decreases todo
    {
      var cat :| cat in todo;
      cats := cats + [cat];
      todo := todo - {cat};
    }
  }

  /** One pass over the shuffled categories, each given one more flag while flags and cells last. */
  method DealPass(order: seq<Category>, byCategory: map<Category, seq<Coord>>, count: nat, before: set<Coord>,
                  ghost eligible: set<Coord>, ghost cells: seq<Coord>, b: Board, rng: Rng,
                  ghost k: nat)
    returns (flagged: set<Coord>, progressed: bool)
    requires NoDup(order) && Filed(byCategory, cells, eligible, b)
    requires forall cat :: cat in order ==> cat in byCategory
    requires before <= eligible && |before| < count && eligible <= set c | c in cells
    requires forall cat :: cat in order ==> Level(before, eligible, b, cat, k)
    ensures flagged <= eligible && |flagged| <= count
    ensures forall cat :: cat in order ==>
              Level(flagged, eligible, b, cat, k) || Level(flagged, eligible, b, cat, k + 1)
    ensures |flagged| < count ==> forall cat :: cat in order ==> Level(flagged, eligible, b, cat, k + 1)
    ensures if progressed then |before| < |flagged| else flagged == before
  {
    flagged, progressed := before, false;
    for i := 0 to |order|
      invariant before <= flagged <= eligible && |flagged| <= count
      invariant if progressed then |before| < |flagged| else flagged == before
      invariant forall j :: 0 <= j < i ==> Level(flagged, eligible, b, order[j], k + 1)
      invariant forall j :: i <= j < |order| ==> Level(flagged, eligible, b, order[j], k)
    {
      if |flagged| >= count {
        return;
      }
      var cat := order[i];
      var open := FindOpen(byCategory[cat], flagged);
      OfSubset(flagged, eligible, b, cat);
      if open == [] {
        assert Of(eligible, b, cat) <= Of(flagged, b, cat);
        SameSizeAs(Of(flagged, b, cat), Of(eligible, b, cat));
        continue;
      }
      var c := Pick(open, rng.draw(|flagged|));
      OfSubset(flagged + {c}, eligible, b, cat);
      forall j | 0 <= j < |order|
        ensures |Of(flagged + {c}, b, order[j])| == |Of(flagged, b, order[j])| + (if j == i then 1 else 0)
      {
        OfInsert(flagged, b, c, order[j]);
      }
      flagged := flagged + {c};
      progressed := true;
    }
  }

  lemma SameSizeAs<T>(a: set<T>, b: set<T>)
    requires a <= b && b <= a
    ensures |a| == |b|
  {
    assert a == b;
  }

  /** The cells of a category that are not flagged yet. */
  method FindOpen(cells: seq<Coord>, flagged: set<Coord>) returns (open: seq<Coord>)
    ensures forall c :: c in open <==> c in cells && c !in flagged
  {
    open := [];
    for i := 0 to |cells|
      invariant forall c :: c in open <==> c in cells[..i] && c !in flagged
    {
      assert cells[..i + 1] == cells[..i] + [cells[i]];
      if cells[i] !in flagged {
        open := open + [cells[i]];
      }
    }
    assert cells[..|cells|] == cells;
  }

  /**
   * Whatever the generator does, the deal ends with as many flags as asked for
   * or as there are eligible cells, all on eligible cells and on their second
   * visit, with no category more than one behind another unless it is full.
   */
  method AssignDailyDoubles(b: Board, played: set<TrackId>, rng: Rng)
    returns (trigger: map<Coord, nat>)
    ensures trigger.Keys <= Eligible(b, played)
    ensures |trigger.Keys| == Least(b.doubles, |Eligible(b, played)|)
    ensures forall c :: c in trigger ==> trigger[c] == 2
    ensures Balanced(trigger.Keys, Eligible(b, played), b)
  {
    var byCategory := FileCells(b, played);
    ghost var eligible := Eligible(b, played);
    var flagged: set<Coord> := {};
    var categories := Keys(byCategory);
    var pass := 0;
    forall cat: Category
      ensures Of({}, b, cat) == {}
    {
    }
    while |flagged| < b.doubles
      invariant flagged <= eligible && |flagged| <= b.doubles
      invariant forall cat :: cat in categories ==>
                  Level(flagged, eligible, b, cat, pass) || Level(flagged, eligible, b, cat, pass + 1)
      invariant |flagged| < b.doubles ==> forall cat :: cat in categories ==> Level(flagged, eligible, b, cat, pass)
      decreases |eligible| - |flagged|
    {
      var order := Shuffled(categories, rng.shuffle(pass));
      NoDupPermuted(categories, order);
      var next, progressed := DealPass(order, byCategory, b.doubles, flagged, eligible, b.grid, b, rng, pass);
      if !progressed {
        StuckMeansFull(flagged, eligible, b, pass);
        break;
      }
      SubsetSize(next, eligible);
      flagged := next;
      if |flagged| < b.doubles {
        pass := pass + 1;
      }
    }
    LevelsBalance(flagged, eligible, b, pass);
    SubsetSize(flagged, eligible);
    trigger := map c | c in flagged :: 2;
    assert trigger.Keys == flagged;
  }

  /** On a well-formed board every deal is one that Start Game accepts. */
  lemma DealAccepted(s: State, deal: set<Coord>)
    requires WellFormed(s.board) && s.phase == Lobby && !s.solo
    requires deal <= Eligible(s.board, s.played)
    requires |deal| == Least(s.board.doubles, |Eligible(s.board, s.played)|)
    requires Balanced(deal, Eligible(s.board, s.played), s.board)
    ensures ValidDeal(s, deal)
    ensures var t := OnStartGame(s, deal);
            t.phase == BoardUp && t.dd.trigger.Keys == deal && forall c :: c in deal ==> t.dd.trigger[c] == 2
  {
    assert Eligible(s.board, s.played) == Dealable(s);
  }
}
