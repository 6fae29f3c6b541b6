/**
 * The letter-by-letter reveal of an answer: orders, masks and the clock that
 * drives them (server/internal/game/reveal.go and the reveal methods of
 * engine.go). Titles are taken as ASCII, so bytes and characters coincide.
 */
module Reveal {
  import opened Common

  const NOISE := 1
  const SKELETON := 2
  const STREAM := 3
  const DONE := 4
  const BLOCK_WIDTH := 16

  // ---- Configuration ----

  datatype Config = Config(interval: int, phase1: int, blockMs: int, ease: int, lockoutChars: int,
                           autoKaraoke: int, yearDelay: int, alternate: bool, transitionDelay: int)

  predicate Within(v: int, lo: int, hi: int) {
    lo <= v <= hi
  }

  function ClampInt(v: int, lo: int, hi: int): int {
    if v < lo then lo else if v > hi then hi else v
  }

  function Clamp(c: Config): Config {
    Config(ClampInt(c.interval, 250, 10000), ClampInt(c.phase1, 0, 20000), ClampInt(c.blockMs, 0, 20000),
           ClampInt(c.ease, 0, 10000), ClampInt(c.lockoutChars, 0, 20), ClampInt(c.autoKaraoke, 0, 15000),
           ClampInt(c.yearDelay, 0, 20000), c.alternate, ClampInt(c.transitionDelay, 1000, 10000))
  }

  predicate InBounds(c: Config) {
    && Within(c.interval, 250, 10000) && Within(c.phase1, 0, 20000) && Within(c.blockMs, 0, 20000)
    && Within(c.ease, 0, 10000) && Within(c.lockoutChars, 0, 20) && Within(c.autoKaraoke, 0, 15000)
    && Within(c.yearDelay, 0, 20000) && Within(c.transitionDelay, 1000, 10000)
  }

  function LetterStartMs(c: Config): int {
    if c.blockMs > c.phase1 then c.blockMs else c.phase1
  }

  /** Clamping lands in bounds, changes nothing already there, and no letter is due before the block collapses. */
  lemma ClampSound(c: Config)
    ensures InBounds(Clamp(c))
    ensures Clamp(c) == c <==> InBounds(c)
    ensures LetterStartMs(c) >= c.blockMs && LetterStartMs(c) >= c.phase1
    ensures LetterStartMs(c) in {c.blockMs, c.phase1}
  {
  }

  // ---- Orders ----

  /** `order` visits every index of a non-space character exactly once. */
  ghost predicate IsOrder(order: seq<nat>, s: string) {
    && NoDup(order)
    && (forall i :: i in order ==> i < |s| && s[i] != ' ')
    && (forall i :: 0 <= i < |s| && s[i] != ' ' ==> i in order)
  }

  /** The same length and the same spaces. */
  predicate SameShape(s: string, t: string) {
    |s| == |t| && forall i :: 0 <= i < |s| ==> (s[i] == ' ' <==> t[i] == ' ')
  }

  function LetterIndices(s: string): seq<nat> {
    if s == [] then []
    else LetterIndices(s[..|s| - 1]) + if s[|s| - 1] != ' ' then [|s| - 1] else []
  }

  lemma {:induction false} LetterIndicesOrder(s: string)
    ensures IsOrder(LetterIndices(s), s)
  {
    if s != [] {
      var init := s[..|s| - 1];
      LetterIndicesOrder(init);
      var k, r := LetterIndices(init), LetterIndices(s);
      forall i, j | 0 <= i < j < |r|
        ensures r[i] != r[j]
      {
        assert r[i] == k[i] && k[i] in k;
        if j < |k| {
          assert k[i] != k[j];
        }
      }
      forall i | 0 <= i < |s| && s[i] != ' '
        ensures i in LetterIndices(s)
      {
        if i < |s| - 1 {
          assert init[i] == s[i];
        }
      }
    }
  }

  /** buildRevealOrder: the letter indices, in the order the seeded generator shuffles them into. */
  method BuildRevealOrder(s: string, shuffle: seq<nat>) returns (order: seq<nat>)
    ensures order == Shuffled(LetterIndices(s), shuffle)
    ensures IsOrder(order, s)
  {
    var idx: seq<nat> := [];
    for i := 0 to |s|
      invariant idx == LetterIndices(s[..i])
    {
      assert s[..i + 1][..i] == s[..i];
      if s[i] != ' ' {
        idx := idx + [i];
      }
    }
    assert s[..|s|] == s;
    LetterIndicesOrder(s);
    order := Shuffled(idx, shuffle);
    NoDupPermuted(idx, order);
  }

  /** The order depends on the shape of the answer alone. */
  lemma {:induction false} OrderFromShape(s: string, t: string)
    requires SameShape(s, t)
    ensures LetterIndices(s) == LetterIndices(t)
  {
    if s != [] {
      OrderFromShape(s[..|s| - 1], t[..|t| - 1]);
    }
  }

  // ---- Masks ----

  /** The first `n` entries of the order, or all of them. */
  function Shown(order: seq<nat>, n: nat): seq<nat> {
    if n <= |order| then order[..n] else order
  }

  function SlotAt(field: string, order: seq<nat>, revealed: nat, i: nat): string
    requires i < |field|
  {
    if field[i] == ' ' then " " else if i in Shown(order, revealed) then [field[i]] else ""
  }

  function Mask(field: string, order: seq<nat>, revealed: nat): (m: seq<string>) {
    seq(|field|, i requires 0 <= i < |field| => SlotAt(field, order, revealed, i))
  }

  /** buildFieldMask: spaces first, then the revealed slots in reveal order. */
  method BuildFieldMask(field: string, order: seq<nat>, revealed: nat) returns (result: seq<string>)
    requires IsOrder(order, field)
    ensures result == Mask(field, order, revealed)
  {
    var mask := new string[|field|];
    for i := 0 to |field|
      invariant forall j :: 0 <= j < i ==> mask[j] == if field[j] == ' ' then " " else ""
    {
      mask[i] := if field[i] == ' ' then " " else "";
    }
    var count := if revealed > |order| then |order| else revealed;
    for i := 0 to count
      invariant forall j :: 0 <= j < |field| ==> mask[j] == SlotAt(field, order, i, j)
    {
      var idx := order[i];
      assert idx in order;
      mask[idx] := [field[idx]];
      assert Shown(order, i + 1) == Shown(order, i) + [idx];
    }
    result := mask[..];
    assert Shown(order, count) == Shown(order, revealed);
    assert forall j :: 0 <= j < |field| ==> SlotAt(field, order, count, j) == SlotAt(field, order, revealed, j);
  }

  function Join(mask: seq<string>): string {
    if mask == [] then "" else Join(mask[..|mask| - 1]) + mask[|mask| - 1]
  }

  /** A completed mask spells the answer exactly. */
  lemma CompletedSpells(field: string, order: seq<nat>, revealed: nat)
    requires IsOrder(order, field) && revealed >= |order|
    ensures Join(Mask(field, order, revealed)) == field
  {
    var m := Mask(field, order, revealed);
    forall i | 0 <= i < |field|
      ensures m[i] == [field[i]]
    {
      assert Shown(order, revealed) == order;
    }
    JoinSpells(m, field);
  }

  lemma {:induction false} JoinSpells(m: seq<string>, field: string)
    requires |m| == |field| && forall i :: 0 <= i < |m| ==> m[i] == [field[i]]
    ensures Join(m) == field
  {
    if m != [] {
      JoinSpells(m[..|m| - 1], field[..|field| - 1]);
      assert field == field[..|field| - 1] + [field[|field| - 1]];
    }
  }

  /** A mask tells nothing but the shape and the revealed characters. */
  lemma MaskNonInterference(s: string, t: string, order: seq<nat>, revealed: nat)
    requires SameShape(s, t) && IsOrder(order, s)
    requires forall i :: i in Shown(order, revealed) && i < |s| ==> s[i] == t[i]
    ensures Mask(s, order, revealed) == Mask(t, order, revealed)
  {
    forall i | 0 <= i < |s|
      ensures SlotAt(s, order, revealed, i) == SlotAt(t, order, revealed, i)
    {
    }
  }

  /** And it does tell those: two answers with the same mask agree on every revealed index. */
  lemma MaskInforms(s: string, t: string, order: seq<nat>, revealed: nat)
    requires IsOrder(order, s) && IsOrder(order, t)
    requires Mask(s, order, revealed) == Mask(t, order, revealed)
    ensures SameShape(s, t) && forall i :: i in Shown(order, revealed) && i < |s| ==> s[i] == t[i]
  {
    assert |Mask(s, order, revealed)| == |s| && |Mask(t, order, revealed)| == |t|;
    forall i | 0 <= i < |s|
      ensures s[i] == ' ' <==> t[i] == ' '
    {
      assert s[i] == ' ' ==> Mask(t, order, revealed)[i] == " ";
      assert t[i] == ' ' ==> Mask(s, order, revealed)[i] == " ";
    }
    forall i | i in Shown(order, revealed) && i < |s|
      ensures s[i] == t[i]
    {
      assert i in order;
      assert Mask(s, order, revealed)[i] == [s[i]] && Mask(t, order, revealed)[i] == [t[i]];
    }
  }

  // ---- The clock ----

  /** The uppercased answer of the round and the orders its letters appear in. */
  datatype Answer = Answer(artist: string, song: string, artistOrder: seq<nat>, songOrder: seq<nat>)

  /** How many letters of each field are shown, and whose turn is next. */
  datatype Letters = Letters(artist: nat, song: nat, songNext: bool)

  datatype Clock = Clock(active: bool, answer: Answer, letters: Letters, phase: int, phase1Done: bool,
                         finalizing: bool, lockedOut: bool, year: int, showYear: bool, cfg: Config)

  ghost predicate Valid(c: Clock) {
    && IsOrder(c.answer.artistOrder, c.answer.artist) && IsOrder(c.answer.songOrder, c.answer.song)
    && Bounded(c.answer, c.letters)
    && 0 <= c.phase <= DONE
  }

  predicate Bounded(a: Answer, l: Letters) {
    l.artist <= |a.artistOrder| && l.song <= |a.songOrder|
  }

  predicate ArtistDone(a: Answer, l: Letters) {
    l.artist >= |a.artistOrder|
  }

  predicate SongDone(a: Answer, l: Letters) {
    l.song >= |a.songOrder|
  }

  predicate AllDone(a: Answer, l: Letters) {
    ArtistDone(a, l) && SongDone(a, l)
  }

  function Remaining(a: Answer, l: Letters): nat {
    var rem := (|a.artistOrder| - l.artist) + (|a.songOrder| - l.song);
    if rem < 0 then 0 else rem
  }

  /** A sanitized frame, as stage, phones and admin all receive it. */
  datatype Frame = Frame(phase: int, artistLen: nat, songLen: nat, artist: seq<string>, song: seq<string>,
                         final: bool, ease: int, year: int)

  /** The year, once its time has come, and 0 before. */
  function Hint(c: Clock): int {
    if c.showYear then c.year else 0
  }

  function CurrentMask(c: Clock): Frame {
    var year := Hint(c);
    if c.phase == NOISE then
      var hidden := seq(BLOCK_WIDTH, _ => "");
      Frame(NOISE, BLOCK_WIDTH, BLOCK_WIDTH, hidden, hidden, false, c.cfg.ease, year)
    else
      Frame(c.phase, |c.answer.artist|, |c.answer.song|, Mask(c.answer.artist, c.answer.artistOrder, c.letters.artist),
            Mask(c.answer.song, c.answer.songOrder, c.letters.song), c.finalizing || c.phase == DONE, c.cfg.ease, year)
  }

  function Arm(answer: Answer, year: int, cfg: Config): Clock {
    var k := Clamp(cfg);
    Clock(true, answer, Letters(0, 0, false), if k.blockMs > 0 then NOISE else SKELETON,
          false, false, false, year, false, k)
  }

  /** revealOneLetter; `coin` is the generator's choice of field when the reveal does not alternate. */
  function RevealOne(a: Answer, l: Letters, alternate: bool, coin: bool): Letters {
    if AllDone(a, l) then l
    else if !alternate then
      if ArtistDone(a, l) || (!SongDone(a, l) && coin) then l.(song := l.song + 1) else l.(artist := l.artist + 1)
    else if (!l.songNext && !ArtistDone(a, l)) || SongDone(a, l) then Letters(l.artist + 1, l.song, true)
    else Letters(l.artist, l.song + 1, false)
  }

  function Everything(a: Answer, l: Letters): Letters {
    l.(artist := |a.artistOrder|, song := |a.songOrder|)
  }

  /** What can happen to the clock of a round; a tick finds the round live or paused by a buzz. */
  datatype Tick =
    | ShowYear
    | Collapse
    | StartLetters
    | Letter(live: bool, coin: bool)
    | FieldFully(songField: bool)
    | Finalize(cfg: Config)

  /** startRevealTicker: a clock with nothing left to reveal stops. */
  function KeepTicking(c: Clock): Clock {
    if AllDone(c.answer, c.letters) then c.(active := false) else c
  }

  function NextLetters(c: Clock, coin: bool): Letters {
    RevealOne(c.answer, c.letters, c.cfg.alternate, coin)
  }

  /** One live letter tick: a letter, the end of the reveal, the lockout gate. */
  function LetterTick(c: Clock, coin: bool): Clock {
    var next := NextLetters(c, coin);
    c.(letters := next,
       phase := if !AllDone(c.answer, c.letters) && AllDone(c.answer, next) then DONE else c.phase,
       lockedOut := c.lockedOut || Remaining(c.answer, next) <= c.cfg.lockoutChars)
  }

  function Step(c: Clock, t: Tick): Clock {
    match t
    case ShowYear => if c.active then c.(showYear := true) else c
    case Collapse => if c.active && c.phase == NOISE then c.(phase := SKELETON) else c
    case StartLetters =>
      if !c.active then c
      else KeepTicking(c.(phase1Done := true, phase := if c.phase < STREAM then STREAM else c.phase))
    case Letter(live, coin) =>
      if !c.active then c
      else KeepTicking(if live then LetterTick(c, coin) else c)
    case FieldFully(songField) =>
      if !c.active then c
      else
        var next := if songField then c.letters.(song := |c.answer.songOrder|)
                    else c.letters.(artist := |c.answer.artistOrder|);
        c.(letters := next, phase := if AllDone(c.answer, next) then DONE else c.phase)
    case Finalize(cfg) =>
      var armed := if !c.active && !c.finalizing
                   then Clock(false, c.answer, Letters(0, 0, false), 0, false, false, false, 0, false, Clamp(cfg))
                   else c;
      armed.(finalizing := true, letters := Everything(c.answer, armed.letters), phase := DONE, active := false)
  }

  /** A letter tick that finds the answer as good as shown. */
  predicate Crosses(c: Clock, t: Tick) {
    t.Letter? && c.active && t.live && Remaining(c.answer, NextLetters(c, t.coin)) <= c.cfg.lockoutChars
  }

  /** The tick that closes buzzing. */
  predicate LocksOut(c: Clock, t: Tick) {
    Crosses(c, t) && !c.lockedOut
  }

  // ---- Single steps ----

  /** The counts of an alternating reveal, while neither field is finished. */
  predicate Alternates(c: Clock) {
    c.cfg.alternate && !ArtistDone(c.answer, c.letters) && !SongDone(c.answer, c.letters) ==>
      c.letters.artist == c.letters.song + if c.letters.songNext then 1 else 0
  }

  lemma ArmValid(answer: Answer, year: int, cfg: Config)
    requires IsOrder(answer.artistOrder, answer.artist) && IsOrder(answer.songOrder, answer.song)
    ensures Valid(Arm(answer, year, cfg)) && Alternates(Arm(answer, year, cfg))
  {
    hide IsOrder;
  }

  /** One letter: nothing to a finished reveal, and otherwise one more letter of exactly one field. */
  lemma RevealOneView(a: Answer, l: Letters, alternate: bool, coin: bool)
    requires Bounded(a, l)
    ensures var r := RevealOne(a, l, alternate, coin);
            && Bounded(a, r) && l.artist <= r.artist && l.song <= r.song
            && (AllDone(a, l) ==> r == l)
            && (!AllDone(a, l) ==> r.artist + r.song == l.artist + l.song + 1)
  {
  }

  lemma StepValid(c: Clock, t: Tick)
    requires Valid(c)
    ensures var d := Step(c, t);
            && Valid(d) && d.answer == c.answer
            && c.phase <= d.phase
            && c.letters.artist <= d.letters.artist && c.letters.song <= d.letters.song
            && (!c.active ==> !d.active)
  {
    hide IsOrder, RevealOne, Remaining;
    if t.Letter? {
      RevealOneView(c.answer, c.letters, c.cfg.alternate, t.coin);
    }
  }

  /** Once the length is up, a slot that shows something shows it for the rest of the round. */
  lemma SlotsStay(c: Clock, t: Tick)
    requires Valid(c) && c.phase >= SKELETON
    ensures Persists(CurrentMask(c), CurrentMask(Step(c, t)))
  {
    hide Step, IsOrder;
    StepValid(c, t);
    var d := Step(c, t);
    MaskGrows(c.answer.artist, c.answer.artistOrder, c.letters.artist, d.letters.artist);
    MaskGrows(c.answer.song, c.answer.songOrder, c.letters.song, d.letters.song);
  }

  /** What frame `f` shows, frame `g` shows unchanged. */
  predicate Persists(f: Frame, g: Frame) {
    && |g.artist| == |f.artist| && |g.song| == |f.song|
    && (forall i :: 0 <= i < |f.artist| && f.artist[i] != "" ==> g.artist[i] == f.artist[i])
    && (forall i :: 0 <= i < |f.song| && f.song[i] != "" ==> g.song[i] == f.song[i])
  }

  lemma MaskGrows(field: string, order: seq<nat>, m: nat, n: nat)
    requires m <= n <= |order|
    ensures forall i :: 0 <= i < |field| && Mask(field, order, m)[i] != "" ==>
              Mask(field, order, n)[i] == Mask(field, order, m)[i]
  {
    assert order[..n] == order[..m] + order[m..n];
  }

  /** Alternation keeps the counts within one of each other until a field is finished. */
  lemma AlternatesStep(c: Clock, t: Tick)
    requires Valid(c) && Alternates(c)
    ensures Alternates(Step(c, t))
    ensures c.cfg.alternate && !ArtistDone(c.answer, c.letters) && !SongDone(c.answer, c.letters) && t.Letter? ==>
              var l := Step(c, t).letters; -1 <= l.artist - l.song <= 1
  {
    hide IsOrder, Remaining;
  }

  // ---- Whole rounds ----

  function After(c: Clock, ticks: seq<Tick>): Clock
    decreases |ticks|
  {
    if ticks == [] then c else After(Step(c, ticks[0]), ticks[1..])
  }

  function Hidden(c: Clock): nat {
    Remaining(c.answer, c.letters)
  }

  /** A tick that reveals one more letter. */
  predicate Advances(c: Clock, t: Tick) {
    t.Letter? && c.active && t.live && !AllDone(c.answer, c.letters)
  }

  function Advanced(c: Clock, ticks: seq<Tick>): nat
    decreases |ticks|
  {
    if ticks == [] then 0
    else (if Advances(c, ticks[0]) then 1 else 0) + Advanced(Step(c, ticks[0]), ticks[1..])
  }

  lemma StepHidden(c: Clock, t: Tick)
    requires Valid(c)
    ensures var d := Step(c, t);
            && (Advances(c, t) ==> Hidden(d) == Hidden(c) - 1)
            && Hidden(d) <= Hidden(c)
            && (!Advances(c, t) && !t.FieldFully? && !t.Finalize? ==> Hidden(d) == Hidden(c))
  {
    hide IsOrder, RevealOne;
    if t.Letter? {
      RevealOneView(c.answer, c.letters, c.cfg.alternate, t.coin);
    }
  }

  /**
   * Letter ticks are bounded by the hidden letters, whatever else happens;
   * with nothing forced, they account for all of them.
   */
  lemma {:induction false} TicksBounded(c: Clock, ticks: seq<Tick>)
    requires Valid(c)
    ensures Advanced(c, ticks) + Hidden(After(c, ticks)) <= Hidden(c)
    ensures (forall t :: t in ticks ==> !t.FieldFully? && !t.Finalize?) ==>
              Advanced(c, ticks) + Hidden(After(c, ticks)) == Hidden(c)
    decreases |ticks|
  {
    hide Step, Valid, Advances, Hidden;
    if ticks != [] {
      StepValid(c, ticks[0]);
      StepHidden(c, ticks[0]);
      assert ticks[0] in ticks && forall t :: t in ticks[1..] ==> t in ticks;
      TicksBounded(Step(c, ticks[0]), ticks[1..]);
    }
  }

  function Lockouts(c: Clock, ticks: seq<Tick>): nat
    decreases |ticks|
  {
    if ticks == [] then 0
    else (if LocksOut(c, ticks[0]) then 1 else 0) + Lockouts(Step(c, ticks[0]), ticks[1..])
  }

  /** The position of the first tick at or below the threshold; `|ticks|` if there is none. */
  function FirstCrossing(c: Clock, ticks: seq<Tick>): nat
    decreases |ticks|
  {
    if ticks == [] || Crosses(c, ticks[0]) then 0 else 1 + FirstCrossing(Step(c, ticks[0]), ticks[1..])
  }

  lemma LockoutStep(c: Clock, t: Tick)
    ensures var d := Step(c, t);
            && (Crosses(c, t) ==> d.lockedOut)
            && (!Crosses(c, t) && d.active ==> d.lockedOut == c.lockedOut)
            && (c.lockedOut && d.active ==> d.lockedOut)
            && (!c.active ==> !d.active && !Crosses(c, t))
  {
    hide RevealOne, Remaining;
  }

  lemma {:induction false} NoLockoutAgain(c: Clock, ticks: seq<Tick>)
    requires c.lockedOut || !c.active
    ensures Lockouts(c, ticks) == 0
    decreases |ticks|
  {
    hide Step, Crosses;
    if ticks != [] {
      LockoutStep(c, ticks[0]);
      NoLockoutAgain(Step(c, ticks[0]), ticks[1..]);
    }
  }

  lemma {:induction false} NeverCrosses(c: Clock, ticks: seq<Tick>)
    requires !c.active
    ensures FirstCrossing(c, ticks) == |ticks|
    decreases |ticks|
  {
    hide Step, Crosses;
    if ticks != [] {
      LockoutStep(c, ticks[0]);
      NeverCrosses(Step(c, ticks[0]), ticks[1..]);
    }
  }

  /** The lockout fires exactly once, at the first tick at or below the threshold, or never if no tick gets there. */
  lemma {:induction false} LockoutOnce(c: Clock, ticks: seq<Tick>)
    requires !c.lockedOut
    ensures var k := FirstCrossing(c, ticks);
            && k <= |ticks|
            && Lockouts(c, ticks) == (if k < |ticks| then 1 else 0)
            && (k < |ticks| ==> LocksOut(After(c, ticks[..k]), ticks[k]))
    decreases |ticks|
  {
    hide Step, Crosses;
    if ticks != [] {
      LockoutStep(c, ticks[0]);
      var d := Step(c, ticks[0]);
      if Crosses(c, ticks[0]) {
        NoLockoutAgain(d, ticks[1..]);
        assert After(c, ticks[..0]) == c;
      } else {
        var k := FirstCrossing(d, ticks[1..]);
        if d.active {
          LockoutOnce(d, ticks[1..]);
          assert k < |ticks[1..]| ==> ticks[..k + 1][1..] == ticks[1..][..k];
        } else {
          NoLockoutAgain(d, ticks[1..]);
          NeverCrosses(d, ticks[1..]);
        }
      }
    }
  }

  /** Over a whole round, in any order of events: the phase only grows, shown slots stay, the alternation holds. */
  lemma {:induction false} RoundMonotone(c: Clock, ticks: seq<Tick>)
    requires Valid(c) && Alternates(c)
    ensures var d := After(c, ticks);
            && Valid(d) && Alternates(d) && d.answer == c.answer
            && c.phase <= d.phase
            && c.letters.artist <= d.letters.artist && c.letters.song <= d.letters.song
    ensures c.phase >= SKELETON ==> Persists(CurrentMask(c), CurrentMask(After(c, ticks)))
    decreases |ticks|
  {
    hide Step, Valid, Alternates, CurrentMask;
    if ticks != [] {
      StepValid(c, ticks[0]);
      AlternatesStep(c, ticks[0]);
      RoundMonotone(Step(c, ticks[0]), ticks[1..]);
      if c.phase >= SKELETON {
        SlotsStay(c, ticks[0]);
      }
    }
  }

  // ---- Non-interference ----

  /** The same clock over another answer. */
  function Over(c: Clock, artist: string, song: string): Clock {
    c.(answer := c.answer.(artist := artist, song := song))
  }

  /** The clock never looks at the answer: it runs the same over any other one. */
  lemma {:induction false} ClockIsBlind(c: Clock, artist: string, song: string, ticks: seq<Tick>)
    ensures After(Over(c, artist, song), ticks) == Over(After(c, ticks), artist, song)
    decreases |ticks|
  {
    hide Step, Over;
    if ticks != [] {
      StepIsBlind(c, artist, song, ticks[0]);
      ClockIsBlind(Step(c, ticks[0]), artist, song, ticks[1..]);
    }
  }

  lemma StepIsBlind(c: Clock, artist: string, song: string, t: Tick)
    ensures Step(Over(c, artist, song), t) == Over(Step(c, t), artist, song)
  {
    hide RevealOne, Remaining, LetterTick;
    if t.Letter? {
      LettersAreBlind(c, artist, song, t.coin);
    }
  }

  lemma LettersAreBlind(c: Clock, artist: string, song: string, coin: bool)
    ensures LetterTick(Over(c, artist, song), coin) == Over(LetterTick(c, coin), artist, song)
  {
    assert NextLetters(Over(c, artist, song), coin) == NextLetters(c, coin);
  }

  /**
   * Two answers of one shape that agree wherever letters have been revealed
   * give identical frames, after any events whatever.
   */
  lemma FramesNonInterference(c: Clock, artist: string, song: string, ticks: seq<Tick>)
    requires Valid(c) && Alternates(c) && SameShape(c.answer.artist, artist) && SameShape(c.answer.song, song)
    requires var d := After(c, ticks);
             && (forall i :: i in Shown(c.answer.artistOrder, d.letters.artist) && i < |artist| ==>
                   artist[i] == c.answer.artist[i])
             && (forall i :: i in Shown(c.answer.songOrder, d.letters.song) && i < |song| ==>
                   song[i] == c.answer.song[i])
    ensures CurrentMask(After(Over(c, artist, song), ticks)) == CurrentMask(After(c, ticks))
  {
    hide After, Step;
    ClockIsBlind(c, artist, song, ticks);
    RoundMonotone(c, ticks);
    var d := After(c, ticks);
    MaskNonInterference(c.answer.artist, artist, c.answer.artistOrder, d.letters.artist);
    MaskNonInterference(c.answer.song, song, c.answer.songOrder, d.letters.song);
  }

  /** While the block is up, a frame tells nothing but the year hint: no letter, no length, no space of the answer. */
  lemma NoiseTellsNothing(c: Clock, d: Clock)
    requires c.phase == NOISE && d.phase == NOISE && c.cfg.ease == d.cfg.ease && Hint(c) == Hint(d)
    ensures CurrentMask(c) == CurrentMask(d)
  {
    assert CurrentMask(c).artist == CurrentMask(d).artist;
  }

  /** The final frame spells both answers. */
  lemma FinalSpells(c: Clock, cfg: Config)
    requires Valid(c)
    ensures var f := CurrentMask(Step(c, Finalize(cfg)));
            && f.final && f.phase == DONE && Join(f.artist) == c.answer.artist && Join(f.song) == c.answer.song
  {
    hide Join, Mask, IsOrder;
    CompletedSpells(c.answer.artist, c.answer.artistOrder, |c.answer.artistOrder|);
    CompletedSpells(c.answer.song, c.answer.songOrder, |c.answer.songOrder|);
  }
}
