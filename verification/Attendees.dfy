/** The registry as the engine holds it: maps that connections and Hellos update in place. */
module Attendees {
  import opened Common
  import opened Registry
  import E = EngineState

  class Registrar {
    var conns: map<ConnId, Conn>
    var players: map<PlayerId, Player>
    var roster: seq<PlayerId>
    var byPlayer: map<PlayerId, set<ConnId>>

    function Value(): Reg
      reads this
    {
      Reg(conns, players, roster, byPlayer)
    }

    constructor ()
      ensures Value() == EMPTY
    {
      conns, players, roster, byPlayer := map[], map[], [], map[];
    }

    method Connect(c: ConnId)
      modifies this
      ensures Value() == AddConn(old(Value()), c)
    {
      if c !in conns {
        conns := conns[c := Conn(Unset, None)];
      }
    }

    method Remove(c: ConnId) returns (gone: Option<PlayerId>)
      modifies this
      ensures (Value(), gone) == RemoveConn(old(Value()), c)
    {
      gone := None;
      if c !in conns {
        return;
      }
      var bound := conns[c].player;
      conns := conns - {c};
      if bound.None? {
        return;
      }
      var p := bound.value;
      var rest := (if p in byPlayer then byPlayer[p] else {}) - {c};
      if rest == {} {
        byPlayer := byPlayer - {p};
        gone := Some(p);
      } else {
        byPlayer := byPlayer[p := rest];
      }
    }

    method Bind(c: ConnId, role: Role, fp: Option<nat>) returns (p: PlayerId)
      modifies this
      ensures Value() == Resolve(old(Value()), c, role, fp) && p == Identity(c, fp)
    {
      p := if fp.Some? then Device(fp.value) else Anonymous(c);
      if fp.None? || p !in players {
        players := players[p := NEWCOMER];
      }
      if p !in roster {
        roster := roster + [p];
      }
      conns := conns[c := Conn(role, Some(p))];
      byPlayer := byPlayer[p := (if p in byPlayer then byPlayer[p] else {}) + {c}];
    }

    method PlayerFor(c: ConnId) returns (p: Option<PlayerId>)
      ensures p == Owner(Value(), c)
    {
      p := None;
      if c in conns && conns[c].player.Some? && conns[c].player.value in players {
        p := conns[c].player;
      }
    }

    method Mobile(p: PlayerId) returns (found: bool)
      ensures found == IsMobile(Value(), p)
    {
      found := false;
      if p in byPlayer {
        var todo := byPlayer[p];
        while todo != {} && !found
          invariant todo <= byPlayer[p]
          invariant !found ==> forall c :: c in byPlayer[p] - todo ==> !(c in conns && conns[c].role == Role.Mobile)
          invariant found ==> exists c :: c in byPlayer[p] && c in conns && conns[c].role == Role.Mobile
          decreases todo
        {
          var c :| c in todo;
          found := c in conns && conns[c].role == Role.Mobile;
          todo := todo - {c};
        }
      }
    }

    method Update(p: PlayerId, q: Player)
      modifies this
      ensures Value() == SetPlayer(old(Value()), p, q)
    {
      players := players[p := q];
    }

    /** Sets the one-guess flag of some attendees, one at a time. */
    method MarkGuessed(who: set<PlayerId>, flag: bool)
      modifies this
      ensures Value() == E.SetGuessed(old(Value()), who, flag)
    {
      var todo := players.Keys * who;
      ghost var before := players;
      while todo != {}
        invariant todo <= before.Keys * who && players.Keys == before.Keys
        invariant unchanged(`conns) && unchanged(`roster) && unchanged(`byPlayer)
        invariant forall p :: p in players ==>
            players[p] == if p in who && p !in todo then before[p].(guessed := flag) else before[p]
        decreases todo
      {
        var p :| p in todo;
        players := players[p := players[p].(guessed := flag)];
        todo := todo - {p};
      }
      assert players == E.SetGuessed(old(Value()), who, flag).players;
    }

    method ResetScores()
      modifies this
      ensures Value() == E.ClearScores(old(Value()))
    {
      var todo := players.Keys;
      ghost var before := players;
      while todo != {}
        invariant todo <= before.Keys && players.Keys == before.Keys
        invariant unchanged(`conns) && unchanged(`roster) && unchanged(`byPlayer)
        invariant forall p :: p in players ==>
            players[p] == if p in todo then before[p] else before[p].(score := 0, guessed := false)
        decreases todo
      {
        var p :| p in todo;
        players := players[p := players[p].(score := 0, guessed := false)];
        todo := todo - {p};
      }
      assert players == E.ClearScores(old(Value())).players;
    }

    /** The attendees with a phone here and now; for a skip vote, only the active ones. */
    method Phones(activeOnly: bool) returns (r: set<PlayerId>)
      ensures r == if activeOnly then E.Voters(Value()) else E.PresentMobile(Value())
    {
      r := {};
      var todo := players.Keys;
      while todo != {}
        invariant todo <= players.Keys
        invariant forall p :: p in r <==>
            p in players && p !in todo && p in E.PresentMobile(Value()) && (activeOnly ==> players[p].active)
        decreases todo
      {
        var p :| p in todo;
        var phone := Mobile(p);
        if phone && !players[p].banned && p in byPlayer && byPlayer[p] != {} && (activeOnly ==> players[p].active) {
          r := r + {p};
        }
        todo := todo - {p};
      }
    }

    method EveryPhone() returns (r: set<PlayerId>)
      ensures r == set p | p in players && IsMobile(Value(), p)
    {
      r := {};
      var todo := players.Keys;
      while todo != {}
        invariant todo <= players.Keys
        invariant forall p :: p in r <==> p in players && p !in todo && IsMobile(Value(), p)
        decreases todo
      {
        var p :| p in todo;
        var phone := Mobile(p);
        if phone {
          r := r + {p};
        }
        todo := todo - {p};
      }
    }

    method CountOnline(who: set<PlayerId>) returns (n: nat)
      ensures n == |set p | p in who && Online(Value(), p)|
    {
      n := 0;
      var todo := who;
      ghost var seen: set<PlayerId> := {};
      while todo != {}
        invariant todo <= who
        invariant seen == set p | p in who - todo && Online(Value(), p)
        invariant n == |seen|
        decreases todo
      {
        var p :| p in todo;
        if p in byPlayer && byPlayer[p] != {} {
          n := n + 1;
          seen := seen + {p};
        }
        todo := todo - {p};
      }
      assert seen == set p | p in who && Online(Value(), p);
    }
  }
}
