/**
 * The live attendee registry: connections, players, and which connections a
 * player holds (server/internal/game/player.go).
 */
module Registry {
  import opened Common

  type ConnId = nat

  /** A player is keyed by device fingerprint, or by connection when it sent none. */
  datatype PlayerId = Device(fp: nat) | Anonymous(conn: ConnId)

  datatype Role = Unset | Mobile | Stage | Admin

  datatype Conn = Conn(role: Role, player: Option<PlayerId>)

  datatype Player = Player(score: int, active: bool, banned: bool, guessed: bool)

  const NEWCOMER := Player(0, true, false, false)

  /** `roster` lists the keys of `players` in order of arrival. */
  datatype Reg = Reg(conns: map<ConnId, Conn>, players: map<PlayerId, Player>,
                     roster: seq<PlayerId>, byPlayer: map<PlayerId, set<ConnId>>)

  const EMPTY := Reg(map[], map[], [], map[])

  predicate Connected(held: map<PlayerId, set<ConnId>>, p: PlayerId) {
    p in held && held[p] != {}
  }

  predicate Online(r: Reg, p: PlayerId) {
    Connected(r.byPlayer, p)
  }

  predicate IsMobile(r: Reg, p: PlayerId) {
    p in r.byPlayer && exists c :: c in r.byPlayer[p] && c in r.conns && r.conns[c].role == Mobile
  }

  function Owner(r: Reg, c: ConnId): Option<PlayerId> {
    if c in r.conns && r.conns[c].player.Some? && r.conns[c].player.value in r.players
    then r.conns[c].player else None
  }

  function Identity(c: ConnId, fp: Option<nat>): PlayerId {
    if fp.Some? then Device(fp.value) else Anonymous(c)
  }

  function AddConn(r: Reg, c: ConnId): Reg {
    if c in r.conns then r else r.(conns := r.conns[c := Conn(Unset, None)])
  }

  /** Drops a connection; the answer names the player that is now fully gone. */
  function RemoveConn(r: Reg, c: ConnId): (Reg, Option<PlayerId>) {
    if c !in r.conns then (r, None)
    else
      var left := r.(conns := r.conns - {c});
      if r.conns[c].player.None? then (left, None)
      else
        var p := r.conns[c].player.value;
        var rest := (if p in r.byPlayer then r.byPlayer[p] else {}) - {c};
        if rest == {} then (left.(byPlayer := r.byPlayer - {p}), Some(p))
        else (left.(byPlayer := r.byPlayer[p := rest]), None)
  }

  /** Binds a Hello to a player: a known fingerprint resumes, anything else starts anew. */
  function Resolve(r: Reg, c: ConnId, role: Role, fp: Option<nat>): Reg {
    var p := Identity(c, fp);
    var known := fp.Some? && p in r.players;
    var held := if p in r.byPlayer then r.byPlayer[p] else {};
    Reg(r.conns[c := Conn(role, Some(p))],
        if known then r.players else r.players[p := NEWCOMER],
        if p in r.roster then r.roster else r.roster + [p],
        r.byPlayer[p := held + {c}])
  }

  function SetPlayer(r: Reg, p: PlayerId, q: Player): Reg {
    r.(players := r.players[p := q])
  }

  /** The reverse index agrees with the connections. */
  ghost predicate Consistent(r: Reg) {
    && (forall p, c :: p in r.byPlayer && c in r.byPlayer[p] ==> c in r.conns && r.conns[c].player == Some(p))
    && (forall c :: c in r.conns && r.conns[c].player.Some? ==>
          r.conns[c].player.value in r.byPlayer && c in r.byPlayer[r.conns[c].player.value])
    && (forall p :: p in r.byPlayer ==> r.byPlayer[p] != {} && p in r.players)
    && (forall p :: p in r.players <==> p in r.roster)
  }

  /**
   * A Hello keeps the index consistent exactly when the connection is not
   * already bound to a different player: a rebinding leaves a stale entry.
   */
  lemma HelloConsistent(r: Reg, c: ConnId, role: Role, fp: Option<nat>)
    requires Consistent(r)
    ensures Consistent(Resolve(r, c, role, fp)) <==>
            (c in r.conns && r.conns[c].player.Some? ==> r.conns[c].player.value == Identity(c, fp))
  {
    var s, p := Resolve(r, c, role, fp), Identity(c, fp);
    if c in r.conns && r.conns[c].player.Some? && r.conns[c].player.value != p {
      var before := r.conns[c].player.value;
      assert c in r.byPlayer[before];
      assert before in s.byPlayer && c in s.byPlayer[before];
      assert s.conns[c].player != Some(before);
      assert !Consistent(s);
    } else {
      forall q, d | q in s.byPlayer && d in s.byPlayer[q]
        ensures d in s.conns && s.conns[d].player == Some(q)
      {
        assert q != p || d != c ==> q in r.byPlayer && d in r.byPlayer[q];
      }
      assert c in s.byPlayer[p];
      assert forall q :: q in s.byPlayer ==> s.byPlayer[q] != {} && q in s.players;
      assert forall d :: d in s.conns && s.conns[d].player.Some? ==>
          s.conns[d].player.value in s.byPlayer && d in s.byPlayer[s.conns[d].player.value];
      assert Consistent(s);
    }
  }

  lemma ConnectionsConsistent(r: Reg, c: ConnId)
    requires Consistent(r)
    ensures Consistent(AddConn(r, c)) && Consistent(RemoveConn(r, c).0)
  {
    var s := RemoveConn(r, c).0;
    assert forall p :: p in s.byPlayer ==> p in r.byPlayer && s.byPlayer[p] <= r.byPlayer[p];
    forall d | d in s.conns && s.conns[d].player.Some?
      ensures s.conns[d].player.value in s.byPlayer && d in s.byPlayer[s.conns[d].player.value]
    {
      assert d in r.byPlayer[r.conns[d].player.value];
    }
  }

  /** In a consistent registry a player is online iff some connection is bound to it. */
  lemma OnlineMeansConnected(r: Reg, p: PlayerId)
    requires Consistent(r)
    ensures Online(r, p) <==> exists c :: c in r.conns && r.conns[c].player == Some(p)
  {
    if Online(r, p) {
      var c :| c in r.byPlayer[p];
      assert c in r.conns;
    }
  }

  /** A dropped attendee that reconnects with its fingerprint resumes its exact record. */
  lemma ReconnectResumes(r: Reg, c: ConnId, d: ConnId, role: Role, fp: nat)
    requires Device(fp) in r.players
    ensures var gone := RemoveConn(r, c).0;
            var back := Resolve(AddConn(gone, d), d, role, Some(fp));
            && back.players == r.players
            && Online(back, Device(fp))
            && Owner(back, d) == Some(Device(fp))
  {
    var gone := RemoveConn(r, c).0;
    var back := Resolve(AddConn(gone, d), d, role, Some(fp));
    assert d in back.byPlayer[Device(fp)];
  }

  /** A Hello without a fingerprint never resumes: it wipes whatever record its connection had. */
  lemma AnonymousHelloForgets(r: Reg, c: ConnId, role: Role)
    ensures Resolve(r, c, role, None).players == r.players[Anonymous(c) := NEWCOMER]
  {
  }
}
