/**
 * The buzz-collection window: contenders are gathered, one entry a player, and
 * the earliest arrival that is still eligible wins, ties broken by a shuffle
 * (server/internal/game/engine.go, addContender and resolveBuzzWindow).
 */
module BuzzWindow {
  import opened Common
  import opened Registry

  datatype Contender = Contender(player: PlayerId, conn: ConnId, arrival: int)

  /** Where the entry of player `p` stands; `|xs|` if there is none. */
  function Slot(xs: seq<Contender>, p: PlayerId): (i: nat)
    ensures i <= |xs|
    ensures i < |xs| ==> xs[i].player == p
    ensures forall j :: 0 <= j < i ==> xs[j].player != p
  {
    if xs == [] || xs[0].player == p then 0 else 1 + Slot(xs[1..], p)
  }

  /** addContender: one entry a player, replaced in place by an earlier arrival. */
  function Enqueue(xs: seq<Contender>, c: Contender): seq<Contender> {
    var i := Slot(xs, c.player);
    if i == |xs| then xs + [c]
    else if c.arrival < xs[i].arrival then xs[i := c]
    else xs
  }

  method AddContender(xs: seq<Contender>, c: Contender) returns (r: seq<Contender>)
    ensures r == Enqueue(xs, c)
  {
    var i := 0;
    while i < |xs|
      invariant 0 <= i <= |xs|
      invariant forall j :: 0 <= j < i ==> xs[j].player != c.player
    {
      if xs[i].player == c.player {
        return if c.arrival < xs[i].arrival then xs[i := c] else xs;
      }
      i := i + 1;
    }
    return xs + [c];
  }

  /** The window after a series of buzzes. */
  function Window(buzzes: seq<Contender>): seq<Contender> {
    if buzzes == [] then []
    else Enqueue(Window(buzzes[..|buzzes| - 1]), buzzes[|buzzes| - 1])
  }

  predicate OnePerPlayer(xs: seq<Contender>) {
    forall i, j :: 0 <= i < j < |xs| ==> xs[i].player != xs[j].player
  }

  /** `w` is a buzz of its player that no other buzz of that player precedes. */
  predicate EarliestOf(w: Contender, buzzes: seq<Contender>) {
    w in buzzes && forall b :: b in buzzes && b.player == w.player ==> w.arrival <= b.arrival
  }

  lemma EnqueueKeepsOnePerPlayer(xs: seq<Contender>, c: Contender)
    requires OnePerPlayer(xs)
    ensures OnePerPlayer(Enqueue(xs, c))
  {
    var r, i := Enqueue(xs, c), Slot(xs, c.player);
    assert forall j :: 0 <= j < |r| ==> r[j].player == if j == i then c.player else xs[j].player;
  }

  /** What an entry of the new window is: an old one of somebody else, or the better of two. */
  lemma EnqueueEntry(xs: seq<Contender>, c: Contender, w: Contender)
    requires OnePerPlayer(xs) && w in Enqueue(xs, c)
    ensures w in xs || w == c
    ensures w.player == c.player ==>
              w.arrival <= c.arrival && forall v :: v in xs && v.player == c.player ==> w.arrival <= v.arrival
  {
    var r, i := Enqueue(xs, c), Slot(xs, c.player);
    var j :| 0 <= j < |r| && r[j] == w;
    if w.player == c.player {
      assert j == i;
      forall v | v in xs && v.player == c.player
        ensures w.arrival <= v.arrival
      {
        var k :| 0 <= k < |xs| && xs[k] == v;
        assert k == i;
      }
    }
  }

  lemma EnqueueCovers(xs: seq<Contender>, c: Contender, p: PlayerId)
    requires p == c.player || exists v :: v in xs && v.player == p
    ensures exists w :: w in Enqueue(xs, c) && w.player == p
  {
    var r, i := Enqueue(xs, c), Slot(xs, c.player);
    if p == c.player {
      assert r[i] in r && r[i].player == p;
    } else {
      var v :| v in xs && v.player == p;
      var k :| 0 <= k < |xs| && xs[k] == v;
      assert r[k] in r && r[k].player == p;
    }
  }

  /**
   * The window refines a map from player to earliest arrival: exactly one
   * entry for every player that buzzed, and it is that player's earliest buzz.
   */
  lemma {:induction false} WindowRefinesMap(buzzes: seq<Contender>)
    ensures OnePerPlayer(Window(buzzes))
    ensures forall w :: w in Window(buzzes) ==> EarliestOf(w, buzzes)
    ensures forall b :: b in buzzes ==> exists w :: w in Window(buzzes) && w.player == b.player
  {
    if buzzes != [] {
      var init, last := buzzes[..|buzzes| - 1], buzzes[|buzzes| - 1];
      WindowRefinesMap(init);
      EnqueueKeepsOnePerPlayer(Window(init), last);
      assert forall b :: b in buzzes <==> b in init || b == last;
      forall w | w in Window(buzzes)
        ensures EarliestOf(w, buzzes)
      {
        EnqueueEntry(Window(init), last, w);
        forall b | b in init && b.player == w.player && w.player == last.player
          ensures w.arrival <= b.arrival
        {
          var v :| v in Window(init) && v.player == b.player;
          assert EarliestOf(v, init);
        }
      }
      forall b | b in buzzes
        ensures exists w :: w in Window(buzzes) && w.player == b.player
      {
        EnqueueCovers(Window(init), last, b.player);
      }
    }
  }

  // ---- Ordering ----

  function Insert(c: Contender, xs: seq<Contender>): (r: seq<Contender>)
    ensures multiset(r) == multiset(xs) + multiset{c}
    ensures r != []
  {
    if xs == [] || c.arrival <= xs[0].arrival then [c] + xs
    else
      assert xs == [xs[0]] + xs[1..];
      [xs[0]] + Insert(c, xs[1..])
  }

  /** sort.SliceStable on arrival alone. */
  function SortStable(xs: seq<Contender>): (r: seq<Contender>)
    ensures multiset(r) == multiset(xs)
  {
    if xs == [] then []
    else
      assert xs == [xs[0]] + xs[1..];
      Insert(xs[0], SortStable(xs[1..]))
  }

  predicate Sorted(xs: seq<Contender>) {
    forall i, j :: 0 <= i <= j < |xs| ==> xs[i].arrival <= xs[j].arrival
  }

  lemma {:induction false} InsertSorted(c: Contender, xs: seq<Contender>)
    requires Sorted(xs)
    ensures Sorted(Insert(c, xs))
  {
    if xs != [] && xs[0].arrival < c.arrival {
      InsertSorted(c, xs[1..]);
      var r := Insert(c, xs[1..]);
      assert multiset(r) == multiset(xs[1..]) + multiset{c};
      forall i | 0 <= i < |r|
        ensures xs[0].arrival <= r[i].arrival
      {
        assert r[i] in multiset(r);
      }
    }
  }

  lemma {:induction false} SortSorted(xs: seq<Contender>)
    ensures Sorted(SortStable(xs))
  {
    if xs != [] {
      SortSorted(xs[1..]);
      InsertSorted(xs[0], SortStable(xs[1..]));
    }
  }

  /** Position of the first contender whose player is eligible; `|xs|` if there is none. */
  function FirstEligible(xs: seq<Contender>, eligible: set<PlayerId>): (i: nat)
    ensures i <= |xs|
    ensures i < |xs| ==> xs[i].player in eligible
    ensures forall j :: 0 <= j < i ==> xs[j].player !in eligible
  {
    if xs == [] || xs[0].player in eligible then 0 else 1 + FirstEligible(xs[1..], eligible)
  }

  method FindEligible(xs: seq<Contender>, eligible: set<PlayerId>) returns (i: nat)
    ensures i == FirstEligible(xs, eligible)
  {
    i := 0;
    while i < |xs|
      invariant i <= |xs|
      invariant forall j :: 0 <= j < i ==> xs[j].player !in eligible
    {
      if xs[i].player in eligible {
        return;
      }
      i := i + 1;
    }
  }

  /** The order in which a closing window considers its contenders. */
  function Ranking(xs: seq<Contender>, shuffle: seq<Contender>): (r: seq<Contender>)
    ensures multiset(r) == multiset(xs)
  {
    SortStable(Shuffled(xs, shuffle))
  }

  function Winner(xs: seq<Contender>, shuffle: seq<Contender>, eligible: set<PlayerId>): (w: Option<Contender>) {
    var order := Ranking(xs, shuffle);
    var i := FirstEligible(order, eligible);
    if i < |order| then Some(order[i]) else None
  }

  /** `w` could win: eligible, and no eligible contender arrived before it. */
  predicate FirstAmong(w: Contender, xs: seq<Contender>, eligible: set<PlayerId>) {
    && w in xs && w.player in eligible
    && forall v :: v in xs && v.player in eligible ==> w.arrival <= v.arrival
  }

  /** Whatever the shuffle, the winner is an earliest eligible contender, and there is one iff anyone is eligible. */
  lemma WinnerIsEarliest(xs: seq<Contender>, shuffle: seq<Contender>, eligible: set<PlayerId>)
    ensures var w := Winner(xs, shuffle, eligible);
            && (w.Some? ==> FirstAmong(w.value, xs, eligible))
            && (w.None? <==> forall v :: v in xs ==> v.player !in eligible)
  {
    var order := Ranking(xs, shuffle);
    SameMembers(order, xs);
    SortSorted(Shuffled(xs, shuffle));
    var i := FirstEligible(order, eligible);
    if i < |order| {
      assert order[i] in order;
      forall v | v in xs && v.player in eligible
        ensures order[i].arrival <= v.arrival
      {
        assert v in order;
        var j :| 0 <= j < |order| && order[j] == v;
      }
    } else {
      forall v | v in xs
        ensures v.player !in eligible
      {
        assert v in order;
      }
    }
  }

  lemma {:induction false} InsertBeforeTies(c: Contender, xs: seq<Contender>, eligible: set<PlayerId>)
    requires c.player in eligible
    requires forall v :: v in xs && v.player in eligible ==> c.arrival <= v.arrival
    ensures var r := Insert(c, xs);
            var i := FirstEligible(r, eligible);
            i < |r| && r[i] == c
  {
    if xs != [] && xs[0].arrival < c.arrival {
      assert xs[0] in xs;
      InsertBeforeTies(c, xs[1..], eligible);
    }
  }

  /**
   * The tie-break favours nobody: each contender tied for earliest wins under
   * some shuffle, so the arrival is the only thing that can exclude it.
   */
  lemma TieBreakIsOpen(xs: seq<Contender>, eligible: set<PlayerId>, w: Contender)
    requires FirstAmong(w, xs, eligible)
    ensures exists shuffle :: multiset(shuffle) == multiset(xs) && Winner(xs, shuffle, eligible) == Some(w)
  {
    var rest := Without(xs, w);
    var shuffle := [w] + rest;
    SameMembers(SortStable(rest), rest);
    assert shuffle[1..] == rest;
    forall v | v in SortStable(rest)
      ensures v in xs
    {
      assert v in multiset(rest) && v in multiset(xs);
    }
    InsertBeforeTies(w, SortStable(rest), eligible);
    assert SortStable(shuffle) == Insert(w, SortStable(rest));
    assert Ranking(xs, shuffle) == Insert(w, SortStable(rest));
    assert Winner(xs, shuffle, eligible) == Some(w);
  }

  function Without(xs: seq<Contender>, w: Contender): (r: seq<Contender>)
    requires w in xs
    ensures multiset(r) + multiset{w} == multiset(xs)
  {
    assert xs == [xs[0]] + xs[1..];
    if xs[0] == w then xs[1..] else [xs[0]] + Without(xs[1..], w)
  }

  // ---- Telling the contenders ----

  /** The buzz results sent when a window closes with contender `i` of `order` the winner. */
  function Verdicts(order: seq<Contender>, winner: nat): (r: seq<(PlayerId, bool)>)
    ensures |r| == |order|
    ensures forall k :: 0 <= k < |r| ==> r[k] == (order[k].player, k == winner)
  {
    seq(|order|, k requires 0 <= k < |order| => (order[k].player, k == winner))
  }

  lemma VerdictsOneWinner(order: seq<Contender>, i: nat)
    requires OnePerPlayer(order) && i < |order|
    ensures var told := Verdicts(order, i);
            && (order[i].player, true) in told
            && (order[i].player, false) !in told
            && (forall p :: (p, true) in told ==> p == order[i].player)
            && (forall v :: v in order && v.player != order[i].player ==> (v.player, false) in told)
  {
    var told := Verdicts(order, i);
    assert told[i] == (order[i].player, true);
    forall v | v in order && v.player != order[i].player
      ensures (v.player, false) in told
    {
      var k :| 0 <= k < |order| && order[k] == v;
      assert told[k] == (v.player, false);
    }
  }

  lemma EarliestOverall(buzzes: seq<Contender>, w: Contender, eligible: set<PlayerId>)
    requires FirstAmong(w, Window(buzzes), eligible)
    ensures EarliestOf(w, buzzes)
    ensures forall b :: b in buzzes && b.player in eligible ==> w.arrival <= b.arrival
  {
    WindowRefinesMap(buzzes);
    forall b | b in buzzes && b.player in eligible
      ensures w.arrival <= b.arrival
    {
      var v :| v in Window(buzzes) && v.player == b.player;
      assert EarliestOf(v, buzzes);
    }
  }

  /**
   * For every order in which the buzzes were queued and every shuffle: if an
   * eligible player buzzed, one player wins with a buzz no eligible player
   * preceded, that player alone is told it won, and everyone else that it lost.
   */
  lemma OneWinnerTold(buzzes: seq<Contender>, shuffle: seq<Contender>, eligible: set<PlayerId>)
    requires exists b :: b in buzzes && b.player in eligible
    ensures var xs := Window(buzzes);
            var order := Ranking(xs, shuffle);
            var told := Verdicts(order, FirstEligible(order, eligible));
            var w := Winner(xs, shuffle, eligible);
            && w.Some?
            && w.value.player in eligible && EarliestOf(w.value, buzzes)
            && (forall b :: b in buzzes && b.player in eligible ==> w.value.arrival <= b.arrival)
            && (w.value.player, true) in told
            && (w.value.player, false) !in told
            && (forall p :: (p, true) in told ==> p == w.value.player)
            && (forall b :: b in buzzes && b.player != w.value.player ==> (b.player, false) in told)
  {
    var xs := Window(buzzes);
    var order := Ranking(xs, shuffle);
    WindowRefinesMap(buzzes);
    WinnerIsEarliest(xs, shuffle, eligible);
    var b :| b in buzzes && b.player in eligible;
    var v :| v in xs && v.player == b.player;
    var w := Winner(xs, shuffle, eligible).value;
    EarliestOverall(buzzes, w, eligible);
    OnePerPlayerPermuted(xs, order);
    VerdictsOneWinner(order, FirstEligible(order, eligible));
    forall b | b in buzzes && b.player != w.player
      ensures (b.player, false) in Verdicts(order, FirstEligible(order, eligible))
    {
      var v :| v in xs && v.player == b.player;
      SameMembers(order, xs);
      assert v in order;
    }
  }

  lemma OnePerPlayerPermuted(xs: seq<Contender>, ys: seq<Contender>)
    requires multiset(xs) == multiset(ys) && OnePerPlayer(xs)
    ensures OnePerPlayer(ys)
  {
    NoDupPermuted(xs, ys);
    forall i, j | 0 <= i < j < |ys|
      ensures ys[i].player != ys[j].player
    {
      SameMembers(xs, ys);
      assert ys[i] in xs && ys[j] in xs;
    }
  }
}
