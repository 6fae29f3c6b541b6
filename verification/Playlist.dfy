/**
 * The Solo Karaoke playlist: a table whose position column has gaps, kept so
 * that it always reads as a plain sequence
 * (server/internal/store/solo_karaoke_store.go).
 */
module Playlist {
  import opened Common

  type Id = nat
  type Uri = nat

  datatype Row = Row(uri: Uri, position: int)

  /** A plain sequence of songs, each with its uri. */
  datatype Model = Model(order: seq<Id>, uri: map<Id, Uri>)

  datatype Outcome = Ok | AlreadyThere | NotFound | DuplicateKey

  datatype Op = Add(id: Id, uri: Uri) | Remove(id: Id) | Reorder(ids: seq<Id>)

  // ---- The sequence ----

  /** The requested ids that exist, each at its first occurrence. */
  function Known(requested: seq<Id>, existing: set<Id>): (r: seq<Id>)
    ensures forall x :: x in r <==> x in requested && x in existing
  {
    if requested == [] then []
    else
      var init, last := requested[..|requested| - 1], requested[|requested| - 1];
      Known(init, existing) + if last in existing && last !in init then [last] else []
  }

  function Members(xs: seq<Id>): set<Id> {
    set x | x in xs
  }

  /** Known requested ids first, then everything else in its prior order. */
  function FinalOrder(existing: seq<Id>, requested: seq<Id>): seq<Id> {
    Known(requested, Members(existing)) + Filter(existing, Members(existing) - Members(requested))
  }

  function SpecStep(m: Model, op: Op): (Model, Outcome) {
    match op
    case Add(id, uri) =>
      if uri in m.uri.Values then (m, AlreadyThere)
      else if id in m.uri then (m, DuplicateKey)
      else (Model(m.order + [id], m.uri[id := uri]), Ok)
    case Remove(id) =>
      if id !in m.uri then (m, NotFound)
      else (Model(Filter(m.order, Members(m.order) - {id}), m.uri - {id}), Ok)
    case Reorder(ids) => (m.(order := FinalOrder(m.order, ids)), Ok)
  }

  function SpecRun(m: Model, ops: seq<Op>): Model
    decreases |ops|
  {
    if ops == [] then m else SpecRun(SpecStep(m, ops[0]).0, ops[1..])
  }

  // ---- What a reorder does ----

  /** Where `x` first stands in `xs`; `|xs|` if nowhere. */
  function First(xs: seq<Id>, x: Id): (i: nat)
    ensures i <= |xs|
    ensures i < |xs| ==> xs[i] == x
    ensures forall j :: 0 <= j < i ==> xs[j] != x
  {
    if xs == [] || xs[0] == x then 0 else 1 + First(xs[1..], x)
  }

  /** `a` belongs before `b`: requested before not, as requested among the requested, as before among the rest. */
  predicate Before(existing: seq<Id>, requested: seq<Id>, a: Id, b: Id) {
    if a in requested && b in requested then First(requested, a) < First(requested, b)
    else if a in requested || b in requested then a in requested
    else First(existing, a) < First(existing, b)
  }

  /** Strictly increasing by some measure. */
  ghost predicate Ranked(xs: seq<Id>, rank: Id -> int) {
    forall i, j :: 0 <= i < j < |xs| ==> rank(xs[i]) < rank(xs[j])
  }

  function ByFirst(xs: seq<Id>): Id -> int {
    (x: Id) => First(xs, x) as int
  }

  lemma RankedSnoc(xs: seq<Id>, x: Id, rank: Id -> int)
    requires Ranked(xs, rank) && forall y :: y in xs ==> rank(y) < rank(x)
    ensures Ranked(xs + [x], rank)
  {
    forall i, j | 0 <= i < j < |xs + [x]|
      ensures rank((xs + [x])[i]) < rank((xs + [x])[j])
    {
      assert xs[i] in xs;
    }
  }

  lemma RankedSame(xs: seq<Id>, rank: Id -> int, other: Id -> int)
    requires Ranked(xs, rank) && forall x :: x in xs ==> rank(x) == other(x)
    ensures Ranked(xs, other)
  {
    forall i, j | 0 <= i < j < |xs|
      ensures other(xs[i]) < other(xs[j])
    {
      assert xs[i] in xs && xs[j] in xs;
      assert rank(xs[i]) < rank(xs[j]);
    }
  }

  lemma RankedNoDup(xs: seq<Id>, rank: Id -> int)
    requires Ranked(xs, rank)
    ensures NoDup(xs)
  {
  }

  lemma {:induction false} FilterRanked(xs: seq<Id>, keep: set<Id>, rank: Id -> int)
    requires Ranked(xs, rank)
    ensures Ranked(Filter(xs, keep), rank)
  {
    if xs != [] {
      FilterRanked(xs[1..], keep, rank);
      var r, rest := Filter(xs, keep), Filter(xs[1..], keep);
      if xs[0] in keep {
        forall i, j | 0 <= i < j < |r|
          ensures rank(r[i]) < rank(r[j])
        {
          assert r[j] == rest[j - 1] && rest[j - 1] in rest;
          if i > 0 {
            assert r[i] == rest[i - 1];
          } else {
            var k :| 0 <= k < |xs[1..]| && xs[1..][k] == r[j];
            assert xs[k + 1] == r[j];
          }
        }
      }
    }
  }

  lemma {:induction false} KnownRanked(requested: seq<Id>, existing: set<Id>)
    ensures Ranked(Known(requested, existing), ByFirst(requested))
  {
    if requested != [] {
      var init, last := requested[..|requested| - 1], requested[|requested| - 1];
      assert requested == init + [last];
      KnownRanked(init, existing);
      var k := Known(init, existing);
      forall x | x in k
        ensures ByFirst(init)(x) == ByFirst(requested)(x) < |init|
      {
        FirstPrefix(init, last, x);
      }
      RankedSame(k, ByFirst(init), ByFirst(requested));
      if last in existing && last !in init {
        FirstPrefix(init, last, last);
        RankedSnoc(k, last, ByFirst(requested));
      }
    }
  }

  lemma FirstIsIndex(xs: seq<Id>)
    requires NoDup(xs)
    ensures forall i :: 0 <= i < |xs| ==> First(xs, xs[i]) == i
    ensures Ranked(xs, ByFirst(xs))
  {
  }

  lemma FirstPrefix(init: seq<Id>, last: Id, x: Id)
    requires x in init + [last]
    ensures First(init + [last], x) == if x in init then First(init, x) else |init|
    ensures x in init ==> First(init, x) < |init|
  {
    var i := First(init + [last], x);
    var k :| 0 <= k < |init + [last]| && (init + [last])[k] == x;
    assert i < |init + [last]|;
    if x in init {
      var m :| 0 <= m < |init| && init[m] == x;
      assert (init + [last])[m] == x;
      var f := First(init, x);
      assert (init + [last])[f] == x;
      assert init[i] == x;
    }
  }

  /**
   * For any list of ids, however partial, stale or repetitive: the result has
   * exactly the existing ids, none twice, and stands in the order promised.
   */
  lemma ReorderMeets(existing: seq<Id>, requested: seq<Id>)
    requires NoDup(existing)
    ensures var r := FinalOrder(existing, requested);
            && NoDup(r) && multiset(r) == multiset(existing)
            && (forall x :: x in r <==> x in existing)
            && (forall i, j :: 0 <= i < j < |r| ==> Before(existing, requested, r[i], r[j]))
  {
    var known := Known(requested, Members(existing));
    var rest := Filter(existing, Members(existing) - Members(requested));
    KnownRanked(requested, Members(existing));
    FirstIsIndex(existing);
    FilterRanked(existing, Members(existing) - Members(requested), ByFirst(existing));
    RankedNoDup(known, ByFirst(requested));
    RankedNoDup(rest, ByFirst(existing));
    JoinedOrder(existing, requested, known, rest);
    SameNoDup(known + rest, existing);
  }

  /** Requested ids in the order requested, then others in the order existing. */
  lemma JoinedOrder(existing: seq<Id>, requested: seq<Id>, known: seq<Id>, rest: seq<Id>)
    requires NoDup(known) && NoDup(rest)
    requires forall x :: x in known ==> x in requested
    requires forall x :: x in rest ==> x !in requested
    requires Ranked(known, ByFirst(requested)) && Ranked(rest, ByFirst(existing))
    ensures NoDup(known + rest)
    ensures forall i, j :: 0 <= i < j < |known + rest| ==>
              Before(existing, requested, (known + rest)[i], (known + rest)[j])
  {
    var r := known + rest;
    forall i, j | 0 <= i < j < |r|
      ensures r[i] != r[j] && Before(existing, requested, r[i], r[j])
    {
      if j < |known| {
        assert known[i] in known && known[j] in known;
        assert ByFirst(requested)(known[i]) < ByFirst(requested)(known[j]);
      } else {
        assert rest[j - |known|] in rest;
        if i < |known| {
          assert known[i] in known;
        } else {
          assert rest[i - |known|] in rest;
          assert ByFirst(existing)(rest[i - |known|]) < ByFirst(existing)(rest[j - |known|]);
        }
      }
    }
  }

  lemma SameNoDup(xs: seq<Id>, ys: seq<Id>)
    requires NoDup(xs) && NoDup(ys) && forall x :: x in xs <==> x in ys
    ensures multiset(xs) == multiset(ys)
  {
    forall x
      ensures multiset(xs)[x] == multiset(ys)[x]
    {
      OnceEach(xs, x);
      OnceEach(ys, x);
      assert x in multiset(xs) <==> x in xs;
      assert x in multiset(ys) <==> x in ys;
    }
  }

  /** Two orderings of the same ids by the same strict rule are the same. */
  lemma {:induction false} OrderUnique(xs: seq<Id>, ys: seq<Id>, rank: Id -> int)
    requires |xs| == |ys| && forall x :: x in xs <==> x in ys
    requires Ranked(xs, rank) && Ranked(ys, rank)
    ensures xs == ys
    decreases |xs|
  {
    if xs != [] {
      assert xs[0] in ys && ys != [];
      assert ys[0] in xs;
      var k :| 0 <= k < |ys| && ys[k] == xs[0];
      var l :| 0 <= l < |xs| && xs[l] == ys[0];
      assert xs[0] == ys[0];
      forall x
        ensures x in xs[1..] <==> x in ys[1..]
      {
        assert x in xs <==> x == xs[0] || x in xs[1..];
        assert x in ys <==> x == ys[0] || x in ys[1..];
      }
      OrderUnique(xs[1..], ys[1..], rank);
    }
  }

  /** A request that is a complete reordering is met to the letter, and an empty one changes nothing. */
  lemma ReorderExact(existing: seq<Id>, requested: seq<Id>)
    requires NoDup(existing) && NoDup(requested) && forall x :: x in existing <==> x in requested
    ensures FinalOrder(existing, requested) == requested
    ensures FinalOrder(existing, []) == existing
  {
    ReorderMeets(existing, requested);
    ReorderMeets(existing, []);
    FirstIsIndex(requested);
    FirstIsIndex(existing);
    var r, e := FinalOrder(existing, requested), FinalOrder(existing, []);
    forall i, j | 0 <= i < j < |r|
      ensures ByFirst(requested)(r[i]) < ByFirst(requested)(r[j])
    {
      assert r[i] in r && r[j] in r;
      assert Before(existing, requested, r[i], r[j]);
    }
    forall i, j | 0 <= i < j < |e|
      ensures ByFirst(existing)(e[i]) < ByFirst(existing)(e[j])
    {
      assert Before(existing, [], e[i], e[j]);
    }
    SameNoDup(requested, existing);
    SameMembers(requested, existing);
    SameMembers(r, existing);
    SameMembers(e, existing);
    OrderUnique(r, requested, ByFirst(requested));
    OrderUnique(e, existing, ByFirst(existing));
  }

  // ---- The table ----

  function ByPosition(t: map<Id, Row>): Id -> int {
    (id: Id) => if id in t then t[id].position else 0
  }

  /** The table reads, by ascending position, as `order`; no two rows share a position. */
  ghost predicate Lists(t: map<Id, Row>, order: seq<Id>) {
    (forall id :: id in t <==> id in order) && Ranked(order, ByPosition(t))
  }

  ghost predicate Represents(t: map<Id, Row>, m: Model) {
    Lists(t, m.order) && m.uri == map id | id in t :: t[id].uri
  }

  lemma ListsNoDup(t: map<Id, Row>, order: seq<Id>)
    requires Lists(t, order)
    ensures NoDup(order)
  {
  }

  lemma SameSize(xs: seq<Id>, ys: seq<Id>, rank: Id -> int)
    requires Ranked(xs, rank) && Ranked(ys, rank) && forall x :: x in xs <==> x in ys
    ensures |xs| == |ys|
  {
    RankedNoDup(xs, rank);
    RankedNoDup(ys, rank);
    SameNoDup(xs, ys);
    SameMembers(xs, ys);
  }

  /** A table reads as one sequence only. */
  lemma RepresentsUnique(t: map<Id, Row>, m: Model, n: Model)
    requires Represents(t, m) && Represents(t, n)
    ensures m == n
  {
    SameSize(m.order, n.order, ByPosition(t));
    OrderUnique(m.order, n.order, ByPosition(t));
  }

  /** COALESCE(MAX(position) + 1, 0). */
  ghost predicate NextPosition(t: map<Id, Row>, p: int) {
    && (t == map[] ==> p == 0)
    && (t != map[] ==> exists id :: id in t && t[id].position + 1 == p)
    && (forall id :: id in t ==> t[id].position < p)
  }

  lemma AddAppends(t: map<Id, Row>, m: Model, id: Id, uri: Uri, p: int)
    requires Represents(t, m) && NextPosition(t, p)
    requires uri !in m.uri.Values && id !in t
    ensures Represents(t[id := Row(uri, p)], SpecStep(m, Add(id, uri)).0)
  {
    hide Ranked;
    var t', n := t[id := Row(uri, p)], SpecStep(m, Add(id, uri)).0;
    RankedSame(m.order, ByPosition(t), ByPosition(t'));
    RankedSnoc(m.order, id, ByPosition(t'));
  }

  /** A removal leaves a hole, and the rest in order. */
  lemma RemoveDeletes(t: map<Id, Row>, m: Model, id: Id)
    requires Represents(t, m) && id in t
    ensures Represents(t - {id}, SpecStep(m, Remove(id)).0)
  {
    hide Ranked;
    var keep := Members(m.order) - {id};
    FilterRanked(m.order, keep, ByPosition(t));
    RankedSame(Filter(m.order, keep), ByPosition(t), ByPosition(t - {id}));
  }

  /** Every row renumbered by its place in the final order. */
  ghost predicate Renumbered(t: map<Id, Row>, final: seq<Id>, u: map<Id, Row>) {
    && u.Keys == t.Keys
    && (forall i :: 0 <= i < |final| && final[i] in t ==> u[final[i]] == Row(t[final[i]].uri, i))
  }

  lemma ReorderRenumbers(t: map<Id, Row>, m: Model, ids: seq<Id>, u: map<Id, Row>)
    requires Represents(t, m) && Renumbered(t, FinalOrder(m.order, ids), u)
    ensures Represents(u, SpecStep(m, Reorder(ids)).0)
  {
    hide FinalOrder, Before, Ranked;
    ListsNoDup(t, m.order);
    ReorderMeets(m.order, ids);
    RenumberedRanked(t, FinalOrder(m.order, ids), u);
  }

  lemma RenumberedRanked(t: map<Id, Row>, final: seq<Id>, u: map<Id, Row>)
    requires NoDup(final) && Renumbered(t, final, u) && forall id :: id in final <==> id in t
    ensures Ranked(final, ByPosition(u))
    ensures (map id | id in u :: u[id].uri) == (map id | id in t :: t[id].uri)
  {
    forall i | 0 <= i < |final|
      ensures ByPosition(u)(final[i]) == i
    {
      assert final[i] in final;
    }
    forall id | id in t
      ensures u[id].uri == t[id].uri
    {
      var i :| 0 <= i < |final| && final[i] == id;
    }
  }

  lemma RankedEmpty(rank: Id -> int)
    ensures Ranked([], rank)
  {
  }

  lemma PositionsDiffer(t: map<Id, Row>, order: seq<Id>, a: Id, b: Id)
    requires Lists(t, order) && a in t && b in t && a != b
    ensures t[a].position != t[b].position
  {
    var i :| 0 <= i < |order| && order[i] == a;
    var j :| 0 <= j < |order| && order[j] == b;
    var rank := ByPosition(t);
    assert if i < j then rank(order[i]) < rank(order[j]) else rank(order[j]) < rank(order[i]);
  }

  // ---- The store ----

  class PlaylistStore {
    var rows: map<Id, Row>
    ghost var model: Model

    ghost predicate Valid()
      reads this
    {
      Represents(rows, model)
    }

    constructor ()
      ensures Valid() && model == Model([], map[])
    {
      rows := map[];
      model := Model([], map[]);
    }

    method MaxPlusOne() returns (p: int)
      ensures NextPosition(rows, p)
    {
      p := 0;
      var todo := rows.Keys;
      while todo != {}
        invariant todo <= rows.Keys
        invariant todo == rows.Keys ==> p == 0
        invariant todo != rows.Keys ==> exists id :: id in rows && id !in todo && rows[id].position + 1 == p
        invariant forall id :: id in rows && id !in todo ==> rows[id].position < p
        decreases todo
      {
        var id :| id in todo;
        if todo == rows.Keys || rows[id].position + 1 > p {
          p := rows[id].position + 1;
        }
        todo := todo - {id};
      }
      assert rows != map[] ==> rows.Keys != {};
    }

    method AddTrack(id: Id, uri: Uri) returns (r: Outcome)
      requires Valid()
      modifies this
      ensures Valid() && (model, r) == SpecStep(old(model), Add(id, uri))
    {
      var conflict := false;
      var todo := rows.Keys;
      while todo != {} && !conflict
        invariant todo <= rows.Keys
        invariant conflict ==> exists k :: k in rows && rows[k].uri == uri
        invariant !conflict ==> forall k :: k in rows && k !in todo ==> rows[k].uri != uri
        decreases todo
      {
        var k :| k in todo;
        conflict := rows[k].uri == uri;
        todo := todo - {k};
      }
      if conflict {
        var k :| k in rows && rows[k].uri == uri;
        assert model.uri[k] == uri;
        return AlreadyThere;
      }
      assert uri !in model.uri.Values;
      if id in rows {
        return DuplicateKey;
      }
      var p := MaxPlusOne();
      AddAppends(rows, model, id, uri, p);
      rows := rows[id := Row(uri, p)];
      model := SpecStep(model, Add(id, uri)).0;
      return Ok;
    }

    method RemoveTrack(id: Id) returns (r: Outcome)
      requires Valid()
      modifies this
      ensures Valid() && (model, r) == SpecStep(old(model), Remove(id))
    {
      if id !in rows {
        return NotFound;
      }
      RemoveDeletes(rows, model, id);
      rows := rows - {id};
      model := SpecStep(model, Remove(id)).0;
      return Ok;
    }

    /** The rows by ascending position. */
    method ListTracks() returns (order: seq<Id>)
      requires Valid()
      ensures order == model.order
    {
      hide Ranked;
      order := [];
      var todo := rows.Keys;
      RankedEmpty(ByPosition(rows));
      while todo != {}
        invariant todo <= rows.Keys
        invariant forall id :: id in order <==> id in rows && id !in todo
        invariant Ranked(order, ByPosition(rows))
        invariant forall x, id :: x in order && id in todo ==> rows[x].position < rows[id].position
        decreases todo
      {
        var next := Lowest(todo);
        forall id | id in todo && id != next
          ensures rows[next].position < rows[id].position
        {
          PositionsDiffer(rows, model.order, next, id);
        }
        RankedSnoc(order, next, ByPosition(rows));
        order := order + [next];
        todo := todo - {next};
      }
      RepresentsUnique(rows, Model(order, model.uri), model);
    }

    method Lowest(todo: set<Id>) returns (low: Id)
      requires todo != {} && todo <= rows.Keys
      ensures low in todo && forall id :: id in todo ==> rows[low].position <= rows[id].position
    {
      low :| low in todo;
      var rest := todo - {low};
      while rest != {}
        invariant rest <= todo && low in todo
        invariant forall id :: id in todo && id !in rest ==> rows[low].position <= rows[id].position
        decreases rest
      {
        var id :| id in rest;
        if rows[id].position < rows[low].position {
          low := id;
        }
        rest := rest - {id};
      }
    }

    /** The final order: the loops over the requested and the existing ids. */
    method FinalIds(existing: seq<Id>, requested: seq<Id>) returns (final: seq<Id>)
      ensures final == FinalOrder(existing, requested)
    {
      var existingSet := {};
      for i := 0 to |existing|
        invariant existingSet == Members(existing[..i])
      {
        assert existing[..i + 1] == existing[..i] + [existing[i]];
        existingSet := existingSet + {existing[i]};
      }
      assert existing[..|existing|] == existing;
      final := [];
      var seen := {};
      for i := 0 to |requested|
        invariant final == Known(requested[..i], existingSet)
        invariant forall x :: x in seen <==> x in requested[..i] && x in existingSet
      {
        var id := requested[i];
        assert requested[..i + 1][..i] == requested[..i] && requested[..i + 1] == requested[..i] + [id];
        if id in existingSet && id !in seen {
          seen := seen + {id};
          final := final + [id];
        }
      }
      assert requested[..|requested|] == requested;
      assert Members(existing) - seen == Members(existing) - Members(requested);
      var rest := Collect(existing, existingSet - seen);
      final := final + rest;
    }

    method ReorderTracks(ids: seq<Id>)
      requires Valid()
      modifies this
      ensures Valid() && model == SpecStep(old(model), Reorder(ids)).0
    {
      hide Ranked, Before, Known;
      var existing := ListTracks();
      var final := FinalIds(existing, ids);
      ListsNoDup(rows, existing);
      ReorderMeets(existing, ids);
      ghost var before := rows;
      rows := Renumber(rows, final);
      ReorderRenumbers(before, model, ids, rows);
      model := SpecStep(model, Reorder(ids)).0;
    }

    /** One update a row, in the final order. */
    static method Renumber(table: map<Id, Row>, final: seq<Id>) returns (u: map<Id, Row>)
      requires NoDup(final) && forall x :: x in final <==> x in table
      ensures Renumbered(table, final, u)
    {
      u := table;
      for i := 0 to |final|
        invariant u.Keys == table.Keys
        invariant forall j :: 0 <= j < |final| ==>
            final[j] in table && u[final[j]] == if j < i then Row(table[final[j]].uri, j) else table[final[j]]
      {
        u := u[final[i] := u[final[i]].(position := i)];
      }
    }

    /** Over any run of operations the table is the plain sequence. */
    method Apply(ops: seq<Op>)
      requires Valid()
      modifies this
      ensures Valid() && model == SpecRun(old(model), ops)
    {
      for i := 0 to |ops|
        invariant Valid() && SpecRun(model, ops[i..]) == SpecRun(old(model), ops)
      {
        assert ops[i..][0] == ops[i] && ops[i..][1..] == ops[i + 1..];
        match ops[i] {
          case Add(id, uri) => var _ := AddTrack(id, uri);
          case Remove(id) => var _ := RemoveTrack(id);
          case Reorder(ids) => ReorderTracks(ids);
        }
      }
    }
  }
}
