/**
 * Solo Karaoke playback: a live queue, a current track and a position clock
 * (server/internal/game/solo_karaoke.go). Times are milliseconds of the clock
 * the program reads; the generator is a finite list of draws.
 */
module SoloKaraoke {
  import opened Common

  type SongId = nat

  datatype Song = Song(id: SongId, durationMs: int)

  datatype Repeat = Off | One | All

  datatype Player = Player(active: bool, current: Option<Song>, queue: seq<Song>, index: int, shuffle: bool,
                           repeat: Repeat, paused: bool, pausedAtMs: int, startMs: int)

  const STOPPED := Player(false, None, [], -1, false, Off, false, 0, 0)

  datatype Action =
    | Reload(tracks: seq<Song>)
    | Play(idle: bool, id: Option<SongId>)
    | Pause
    | Resume
    | Stop
    | Next(draws: seq<nat>)
    | Prev
    | Seek(to: int)
    | SetShuffle(on: bool)
    | SetRepeat(mode: Repeat)
    | TrackEnded(draws: seq<nat>)

  /** Where the song with this id stands in the queue; -1 if it does not. */
  function Find(queue: seq<Song>, id: SongId): (i: int)
    ensures -1 <= i < |queue|
    ensures 0 <= i ==> queue[i].id == id && forall j :: 0 <= j < i ==> queue[j].id != id
    ensures i == -1 ==> forall s :: s in queue ==> s.id != id
  {
    if queue == [] then -1
    else if queue[0].id == id then 0
    else
      var rest := Find(queue[1..], id);
      if rest == -1 then -1 else rest + 1
  }

  /** The first draw, taken modulo `n`, that is not the index to avoid; `|draws|` if there is none. */
  function FirstOther(draws: seq<nat>, n: nat, avoid: int): (k: nat)
    requires n > 0
    ensures k <= |draws|
    ensures k < |draws| ==> draws[k] % n != avoid
    ensures forall j :: 0 <= j < k ==> draws[j] % n == avoid
  {
    if draws == [] || draws[0] % n != avoid then 0 else 1 + FirstOther(draws[1..], n, avoid)
  }

  /** While active there is a current track, and `index` is -1 or points at its id; the index never runs away. */
  predicate Cued(p: Player) {
    && -1 <= p.index
    && (p.active <==> p.current.Some?)
    && (p.active && p.index != -1 ==> p.index < |p.queue| && p.queue[p.index].id == p.current.value.id)
  }

  /** A shuffled step needs a generator that eventually draws another index: the program's loop waits for one. */
  predicate Draws(p: Player, draws: seq<nat>) {
    p.shuffle && |p.queue| > 1 ==> FirstOther(draws, |p.queue|, p.index) < |draws|
  }

  predicate Allowed(p: Player, a: Action) {
    (a.Next? || a.TrackEnded?) && p.active ==> Draws(p, a.draws)
  }

  function PlayAt(p: Player, i: nat, now: int): (q: Player)
    requires i < |p.queue|
  {
    p.(active := true, index := i, current := Some(p.queue[i]), paused := false, pausedAtMs := 0, startMs := now)
  }

  function Deactivate(p: Player): Player {
    if p.active then p.(active := false, current := None, paused := false) else p
  }

  function StepForward(p: Player, draws: seq<nat>, now: int): Player
    requires Cued(p) && p.active && Draws(p, draws)
  {
    var n := |p.queue|;
    if n == 0 then Deactivate(p)
    else if p.shuffle then PlayAt(p, if n > 1 then draws[FirstOther(draws, n, p.index)] % n else 0, now)
    else if p.index + 1 < n then PlayAt(p, p.index + 1, now)
    else if p.repeat == All then PlayAt(p, 0, now)
    else Deactivate(p)
  }

  function Clamped(pos: int, duration: int): int {
    var p := if pos < 0 then 0 else pos;
    if duration > 0 && p > duration then duration else p
  }

  /**
   * One command. Every queue access is in range, from every cued state, and
   * every command leaves the player cued.
   */
  function Step(p: Player, a: Action, now: int): (q: Player)
    requires Cued(p) && Allowed(p, a)
    ensures Cued(q)
  {
    match a
    case Reload(tracks) =>
      p.(queue := tracks, index := if p.current.None? then p.index else Find(tracks, p.current.value.id))
    case Play(idle, id) =>
      if !idle || p.queue == [] then p
      else if id.Some? then
        var found := Find(p.queue, id.value);
        if found == -1 then p else PlayAt(p, found, now)
      else PlayAt(p, if 0 <= p.index < |p.queue| then p.index else 0, now)
    case Pause =>
      if !p.active || p.paused then p else p.(paused := true, pausedAtMs := now - p.startMs)
    case Resume =>
      if !p.active || !p.paused then p else p.(paused := false, startMs := now - p.pausedAtMs)
    case Stop => Deactivate(p)
    case Next(draws) => if p.active then StepForward(p, draws, now) else p
    case Prev =>
      if !p.active || p.queue == [] then p
      else PlayAt(p, if p.index - 1 < 0 then 0 else p.index - 1, now)
    case Seek(to) =>
      if !p.active then p
      else
        var pos := Clamped(to, p.current.value.durationMs);
        p.(startMs := now - pos, pausedAtMs := if p.paused then pos else p.pausedAtMs)
    case SetShuffle(on) => p.(shuffle := on)
    case SetRepeat(mode) => p.(repeat := mode)
    case TrackEnded(draws) =>
      if !p.active then p
      else if p.repeat == One && 0 <= p.index < |p.queue| then PlayAt(p, p.index, now)
      else StepForward(p, draws, now)
  }

  type Timed = (Action, int)

  ghost predicate AllAllowed(p: Player, run: seq<Timed>)
    requires Cued(p)
    decreases |run|
  {
    run != [] ==> Allowed(p, run[0].0) && AllAllowed(Step(p, run[0].0, run[0].1), run[1..])
  }

  /** After any mix of reloads, steps, jumps and seeks the player is still cued. */
  ghost function After(p: Player, run: seq<Timed>): (q: Player)
    requires Cued(p) && AllAllowed(p, run)
    ensures Cued(q)
    decreases |run|
  {
    if run == [] then p else After(Step(p, run[0].0, run[0].1), run[1..])
  }

  /** Reloading the queue never disturbs what is playing, and re-cues it wherever it now stands. */
  lemma ReloadKeepsPlaying(p: Player, tracks: seq<Song>, now: int)
    requires Cued(p) && p.active
    ensures var q := Step(p, Reload(tracks), now);
            && q == p.(queue := tracks, index := q.index)
            && (q.index == -1 <==> forall s :: s in tracks ==> s.id != p.current.value.id)
  {
    var q := Step(p, Reload(tracks), now);
    if q.index != -1 {
      assert tracks[q.index] in tracks;
    }
  }

  // ---- Stepping through the queue ----

  /** Tracks end one after another, at the given times. */
  function Ends(times: seq<int>): (r: seq<Timed>)
    ensures |r| == |times|
    ensures times != [] ==> r[0] == (TrackEnded([]), times[0]) && r[1..] == Ends(times[1..])
  {
    if times == [] then [] else [(TrackEnded([]), times[0])] + Ends(times[1..])
  }

  predicate Sequential(p: Player) {
    Cued(p) && p.active && !p.shuffle && p.queue != []
  }

  /** Position `i` on a wheel of `n`. */
  function Wrap(i: nat, n: nat): (r: nat)
    requires n > 0
    ensures r < n
  {
    if i < n then i else Wrap(i - n, n)
  }

  function Following(i: nat, n: nat): (r: nat)
    requires i < n
    ensures r < n
  {
    if i + 1 < n then i + 1 else 0
  }

  /** `k` single turns of the wheel. */
  function Turn(i: nat, k: nat, n: nat): (r: nat)
    requires i < n
    ensures r < n
    decreases k
  {
    if k == 0 then i else Turn(Following(i, n), k - 1, n)
  }

  lemma {:induction false} TurnWraps(i: nat, k: nat, n: nat)
    requires i < n
    ensures Turn(i, k, n) == Wrap(i + k, n)
    decreases k
  {
    if k > 0 {
      TurnWraps(Following(i, n), k - 1, n);
    }
  }

  lemma {:induction false} EndsTurn(p: Player, times: seq<int>)
    requires Sequential(p) && p.repeat == All && 0 <= p.index < |p.queue|
    ensures AllAllowed(p, Ends(times))
    ensures var q := After(p, Ends(times));
            q.active && q.queue == p.queue && q.index == Turn(p.index, |times|, |p.queue|)
    decreases |times|
  {
    hide Step, Allowed, Cued, After, AllAllowed, Ends;
    EndsUnfold(p, times);
    if times != [] {
      EndWraps(p, times[0]);
      EndsTurn(Step(p, TrackEnded([]), times[0]), times[1..]);
    }
  }

  /** Under repeat-all the index goes round the whole queue, one track an end, whatever the times. */
  lemma RepeatAllCycles(p: Player, times: seq<int>)
    requires Sequential(p) && p.repeat == All && p.index != -1
    ensures AllAllowed(p, Ends(times))
    ensures var q := After(p, Ends(times));
            q.active && q.queue == p.queue && q.index == Wrap(p.index + |times|, |p.queue|)
  {
    hide AllAllowed, Ends;
    EndsTurn(p, times);
    TurnWraps(p.index, |times|, |p.queue|);
  }

  lemma EndsUnfold(p: Player, times: seq<int>)
    requires Cued(p)
    ensures times == [] ==> AllAllowed(p, Ends(times)) && After(p, Ends(times)) == p
    ensures times != [] && Allowed(p, TrackEnded([])) ==>
              var q := Step(p, TrackEnded([]), times[0]);
              && AllAllowed(p, Ends(times)) == AllAllowed(q, Ends(times[1..]))
              && (AllAllowed(p, Ends(times)) ==> After(p, Ends(times)) == After(q, Ends(times[1..])))
  {
    hide Step, Allowed, Cued;
  }

  lemma EndWraps(p: Player, now: int)
    requires Sequential(p) && p.repeat == All && 0 <= p.index < |p.queue|
    ensures Allowed(p, TrackEnded([]))
    ensures var q := Step(p, TrackEnded([]), now);
            && Sequential(q) && q.repeat == All && q.queue == p.queue
            && q.index == Following(p.index, |p.queue|)
  {
  }

  /** So in `n` ends every one of the `n` tracks comes up, and the first one again at last. */
  lemma RepeatAllCovers(p: Player, times: seq<int>, j: nat)
    requires Sequential(p) && p.repeat == All && 0 <= p.index
    requires |times| == |p.queue| && j < |p.queue|
    ensures AllAllowed(p, Ends(times)) && After(p, Ends(times)).index == p.index
    ensures exists k :: 0 <= k < |times| && AllAllowed(p, Ends(times[..k])) && After(p, Ends(times[..k])).index == j
  {
    hide After, AllAllowed, Ends;
    var n := |p.queue|;
    RepeatAllCycles(p, times);
    var k := if p.index <= j then j - p.index else j + n - p.index;
    RepeatAllCycles(p, times[..k]);
    assert Wrap(p.index + k, n) == j;
  }

  /** Without repeat, `n-1-index` more tracks play in order, and the end of the last one ends the session. */
  lemma {:induction false} NoRepeatEnds(p: Player, times: seq<int>)
    requires Sequential(p) && p.repeat == Off
    requires |times| <= |p.queue| - p.index
    ensures AllAllowed(p, Ends(times))
    ensures var q := After(p, Ends(times));
            if |times| < |p.queue| - p.index
            then q.active && q.queue == p.queue && q.index == p.index + |times|
            else !q.active && q.current.None?
    decreases |times|
  {
    if times != [] {
      var next := Step(p, TrackEnded([]), times[0]);
      if p.index + 1 < |p.queue| {
        NoRepeatEnds(next, times[1..]);
      } else {
        assert times[1..] == [];
      }
    }
  }

  /** Repeat-one replays a natural end, falls forward when its track is gone, and never holds a manual skip back. */
  lemma RepeatOne(p: Player, draws: seq<nat>, now: int)
    requires Cued(p) && p.active && p.repeat == One && Draws(p, draws)
    ensures p.index != -1 ==>
              var q := Step(p, TrackEnded(draws), now); q.index == p.index && q.active && Position(q, now) == 0
    ensures p.index == -1 && !p.shuffle && p.queue != [] ==> Step(p, TrackEnded(draws), now).index == 0
    ensures p.index == -1 ==> (Step(p, TrackEnded(draws), now).active <==> p.queue != [])
    ensures !p.shuffle && p.index + 1 < |p.queue| ==> Step(p, Next(draws), now).index == p.index + 1
  {
  }

  /** A shuffled step plays some other track of the queue, and can play any other one. */
  lemma ShuffleMovesOn(p: Player, draws: seq<nat>, now: int, j: nat)
    requires Cued(p) && p.active && p.shuffle && |p.queue| > 1 && Draws(p, draws)
    requires j < |p.queue| && j != p.index
    ensures var q := Step(p, Next(draws), now);
            q.active && 0 <= q.index < |p.queue| && q.index != p.index && q.current == Some(p.queue[q.index])
    ensures Draws(p, [j]) && Step(p, Next([j]), now).index == j
  {
    assert j % |p.queue| == j;
    assert FirstOther([j], |p.queue|, p.index) == 0;
  }

  /** Back and forth again: in the middle of a queue, a previous and a next cancel out. */
  lemma PrevNext(p: Player, now: int, later: int)
    requires Sequential(p) && 0 < p.index
    ensures var q := Step(Step(p, Prev, now), Next([]), later);
            q.index == p.index && q.current == Some(p.queue[p.index])
    ensures p.index == 0 || p.index == -1 ==> Step(p, Prev, now).index == 0
  {
  }

  // ---- The position clock ----

  /** How far into the current track the program takes playback to be. */
  function Position(p: Player, now: int): int {
    if p.paused then p.pausedAtMs else now - p.startMs
  }

  /** Commands that leave the current track where it is playing. */
  predicate KeepsPlaying(a: Action) {
    a.Pause? || a.Resume? || a.Reload? || a.SetShuffle? || a.SetRepeat?
  }

  predicate PausedAfter(paused: bool, a: Action) {
    if a.Pause? then true else if a.Resume? then false else paused
  }

  /** Unpaused time from `from` until `until`, read off the log of commands alone. */
  function UnpausedTime(paused: bool, from: int, log: seq<Timed>, until: int): int
    decreases |log|
  {
    if log == [] then if paused then 0 else until - from
    else
      (if paused then 0 else log[0].1 - from) + UnpausedTime(PausedAfter(paused, log[0].0), log[0].1, log[1..], until)
  }

  /** Over any such commands, the position is where it was plus the unpaused time since. */
  lemma {:induction false} PositionAdvances(p: Player, from: int, log: seq<Timed>, until: int)
    requires Cued(p) && p.active
    requires forall x :: x in log ==> KeepsPlaying(x.0)
    ensures AllAllowed(p, log)
    ensures var q := After(p, log);
            && q.active && q.current == p.current
            && Position(q, until) == Position(p, from) + UnpausedTime(p.paused, from, log, until)
    decreases |log|
  {
    if log != [] {
      assert log[0] in log && forall x :: x in log[1..] ==> x in log;
      var q := Step(p, log[0].0, log[0].1);
      assert q.active && q.current == p.current && q.paused == PausedAfter(p.paused, log[0].0);
      assert Position(q, log[0].1) == Position(p, from) + if p.paused then 0 else log[0].1 - from;
      PositionAdvances(q, log[0].1, log[1..], until);
    }
  }

  /** The derived position: the origin set by the last seek, clamped to the track, plus the unpaused time since. */
  lemma PositionSinceSeek(p: Player, to: int, at: int, log: seq<Timed>, until: int)
    requires Cued(p) && p.active
    requires forall x :: x in log ==> KeepsPlaying(x.0)
    ensures var sought := Step(p, Seek(to), at);
            && sought.active && sought.paused == p.paused && AllAllowed(sought, log)
            && Position(After(sought, log), until) ==
               Clamped(to, p.current.value.durationMs) + UnpausedTime(p.paused, at, log, until)
  {
    PositionAdvances(Step(p, Seek(to), at), at, log, until);
  }

  /** And from the start of a track, however it was started, plus nothing. */
  lemma PositionSinceStart(p: Player, i: nat, at: int, log: seq<Timed>, until: int)
    requires Cued(p) && i < |p.queue|
    requires forall x :: x in log ==> KeepsPlaying(x.0)
    ensures var started := PlayAt(p, i, at);
            && Cued(started) && AllAllowed(started, log)
            && Position(After(started, log), until) == UnpausedTime(false, at, log, until)
  {
    PositionAdvances(PlayAt(p, i, at), at, log, until);
  }

  // ---- The object ----

  class SoloPlayer {
    var active: bool
    var current: Option<Song>
    var queue: seq<Song>
    var index: int
    var shuffle: bool
    var repeat: Repeat
    var paused: bool
    var pausedAtMs: int
    var startMs: int

    ghost function View(): Player
      reads this
    {
      Player(active, current, queue, index, shuffle, repeat, paused, pausedAtMs, startMs)
    }

    constructor ()
      ensures View() == STOPPED && Cued(View())
    {
      active, current, queue, index, shuffle := false, None, [], -1, false;
      repeat, paused, pausedAtMs, startMs := Off, false, 0, 0;
    }

    /** The search loops of a reload and of a jump. */
    method IndexOf(tracks: seq<Song>, id: SongId) returns (i: int)
      ensures i == Find(tracks, id)
    {
      for j := 0 to |tracks|
        invariant forall k :: 0 <= k < j ==> tracks[k].id != id
      {
        if tracks[j].id == id {
          return j;
        }
      }
      assert forall s :: s in tracks ==> s.id != id;
      return -1;
    }

    method ReloadQueue(tracks: seq<Song>)
      requires Cued(View())
      modifies this`queue, this`index
      ensures View() == Step(old(View()), Reload(tracks), 0)
    {
      queue := tracks;
      if current.None? {
        return;
      }
      index := IndexOf(tracks, current.value.id);
    }

    method StartAt(i: nat, now: int)
      requires i < |queue|
      modifies this
      ensures View() == PlayAt(old(View()), i, now)
    {
      active := true;
      index := i;
      current := Some(queue[i]);
      paused := false;
      pausedAtMs := 0;
      startMs := now;
    }

    method PlaySong(idle: bool, id: Option<SongId>, now: int)
      requires Cued(View())
      modifies this
      ensures View() == Step(old(View()), Play(idle, id), now)
    {
      if !idle || queue == [] {
        return;
      }
      var i := index;
      if id.Some? {
        i := IndexOf(queue, id.value);
        if i == -1 {
          return;
        }
      } else if i < 0 || i >= |queue| {
        i := 0;
      }
      StartAt(i, now);
    }

    method PausePlayback(now: int)
      requires Cued(View())
      modifies this`paused, this`pausedAtMs
      ensures View() == Step(old(View()), Pause, now)
    {
      if active && !paused {
        pausedAtMs := now - startMs;
        paused := true;
      }
    }

    method ResumePlayback(now: int)
      requires Cued(View())
      modifies this`paused, this`startMs
      ensures View() == Step(old(View()), Resume, now)
    {
      if active && paused {
        paused := false;
        startMs := now - pausedAtMs;
      }
    }

    method Halt()
      modifies this`active, this`current, this`paused
      ensures View() == Deactivate(old(View()))
    {
      if active {
        active, current, paused := false, None, false;
      }
    }

    /** Draws indices until one differs from the current one. */
    method DrawOther(draws: seq<nat>) returns (next: nat)
      requires |queue| > 1 && FirstOther(draws, |queue|, index) < |draws|
      ensures next == draws[FirstOther(draws, |queue|, index)] % |queue|
    {
      var k := 0;
      ghost var goal := FirstOther(draws, |queue|, index);
      while draws[k] % |queue| == index
        invariant k <= goal
        decreases goal - k
      {
        k := k + 1;
      }
      next := draws[k] % |queue|;
    }

    method MoveForward(draws: seq<nat>, now: int)
      requires Cued(View()) && active && Draws(View(), draws)
      modifies this
      ensures View() == StepForward(old(View()), draws, now)
    {
      var n := |queue|;
      if n == 0 {
        Halt();
        return;
      }
      if shuffle {
        var drawn := 0;
        if n > 1 {
          drawn := DrawOther(draws);
        }
        StartAt(drawn, now);
        return;
      }
      var next := index + 1;
      if next >= n {
        if repeat != All {
          Halt();
          return;
        }
        next := 0;
      }
      StartAt(next, now);
    }

    method SkipForward(draws: seq<nat>, now: int)
      requires Cued(View()) && Allowed(View(), Next(draws))
      modifies this
      ensures View() == Step(old(View()), Next(draws), now)
    {
      if active {
        MoveForward(draws, now);
      }
    }

    method SkipBack(now: int)
      requires Cued(View())
      modifies this
      ensures View() == Step(old(View()), Prev, now)
    {
      if !active || queue == [] {
        return;
      }
      var i := index - 1;
      if i < 0 {
        i := 0;
      }
      StartAt(i, now);
    }

    method SeekTo(to: int, now: int)
      requires Cued(View())
      modifies this`startMs, this`pausedAtMs
      ensures View() == Step(old(View()), Seek(to), now)
    {
      if !active {
        return;
      }
      var pos := to;
      if pos < 0 {
        pos := 0;
      }
      if current.value.durationMs > 0 && pos > current.value.durationMs {
        pos := current.value.durationMs;
      }
      startMs := now - pos;
      if paused {
        pausedAtMs := pos;
      }
    }

    /** The stage reports that the track has ended. */
    method Advance(draws: seq<nat>, now: int)
      requires Cued(View()) && Allowed(View(), TrackEnded(draws))
      modifies this
      ensures View() == Step(old(View()), TrackEnded(draws), now)
    {
      if !active {
        return;
      }
      if repeat == One && 0 <= index < |queue| {
        StartAt(index, now);
      } else {
        MoveForward(draws, now);
      }
    }
  }
}
