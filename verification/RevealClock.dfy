/** The reveal clock as the program holds it: counters that timers and grades update in place. */
module RevealClockObject {
  import opened Common
  import opened Reveal
  import R = Reveal

  class RevealClock {
    var active: bool
    var artist: string
    var song: string
    var artistOrder: seq<nat>
    var songOrder: seq<nat>
    var artistRevealed: nat
    var songRevealed: nat
    var phase: int
    var phase1Done: bool
    var finalizing: bool
    var nextField: nat
    var lockedOut: bool
    var year: int
    var showYear: bool
    var cfg: Config

    ghost function AnswerView(): Answer
      reads this`artist, this`song, this`artistOrder, this`songOrder
    {
      Answer(artist, song, artistOrder, songOrder)
    }

    ghost function LettersView(): Letters
      reads this`artistRevealed, this`songRevealed, this`nextField
    {
      Letters(artistRevealed, songRevealed, nextField != 0)
    }

    ghost function View(): Clock
      reads this
    {
      Clock(active, AnswerView(), LettersView(), phase, phase1Done, finalizing, lockedOut, year, showYear, cfg)
    }

    /** startReveal: the shuffles are those the round key seeds. */
    constructor (artistText: string, songText: string, artistShuffle: seq<nat>, songShuffle: seq<nat>, yearHint: int,
                 config: Config)
      ensures R.Valid(View()) && Alternates(View())
      ensures View() == Arm(Answer(artistText, songText, Shuffled(LetterIndices(artistText), artistShuffle),
                                   Shuffled(LetterIndices(songText), songShuffle)), yearHint, config)
    {
      var k := Clamp(config);
      active, artist, song := true, artistText, songText;
      artistRevealed, songRevealed, nextField := 0, 0, 0;
      phase := if k.blockMs > 0 then NOISE else SKELETON;
      phase1Done, finalizing, lockedOut := false, false, false;
      year, showYear, cfg := yearHint, false, k;
      var order1 := BuildRevealOrder(artistText, artistShuffle);
      var order2 := BuildRevealOrder(songText, songShuffle);
      artistOrder, songOrder := order1, order2;
      new;
      ArmValid(AnswerView(), yearHint, config);
    }

    predicate ArtistDone()
      reads this`artistRevealed, this`artistOrder
    {
      artistRevealed >= |artistOrder|
    }

    predicate SongDone()
      reads this`songRevealed, this`songOrder
    {
      songRevealed >= |songOrder|
    }

    /** One letter of one field; the answer says whether there was one left. */
    method RevealOneLetter(coin: bool) returns (more: bool)
      modifies this`artistRevealed, this`songRevealed, this`nextField
      ensures LettersView() == NextLetters(old(View()), coin)
      ensures more == !old(AllDone(AnswerView(), LettersView()))
    {
      if ArtistDone() && SongDone() {
        return false;
      }
      if !cfg.alternate {
        if ArtistDone() {
          songRevealed := songRevealed + 1;
        } else if SongDone() {
          artistRevealed := artistRevealed + 1;
        } else if coin {
          songRevealed := songRevealed + 1;
        } else {
          artistRevealed := artistRevealed + 1;
        }
        return true;
      }
      for tries := 0 to 2
        invariant artistRevealed == old(artistRevealed) && songRevealed == old(songRevealed)
        invariant tries == 0 ==> nextField == old(nextField)
        invariant tries == 1 ==>
            if old(nextField) == 0 then nextField == 1 && ArtistDone() else nextField == 0 && SongDone()
        invariant tries < 2
      {
        if nextField == 0 {
          nextField := 1;
          if !ArtistDone() {
            artistRevealed := artistRevealed + 1;
            return true;
          }
        } else {
          nextField := 0;
          if !SongDone() {
            songRevealed := songRevealed + 1;
            return true;
          }
        }
      }
      return false;
    }

    method Show()
      modifies this`showYear
      ensures View() == R.Step(old(View()), ShowYear)
    {
      if active {
        showYear := true;
      }
    }

    method CollapseBlock()
      modifies this`phase
      ensures View() == R.Step(old(View()), Collapse)
    {
      if active && phase == NOISE {
        phase := SKELETON;
      }
    }

    method StartStream()
      modifies this`phase, this`phase1Done, this`active
      ensures View() == R.Step(old(View()), StartLetters)
    {
      if !active {
        return;
      }
      phase1Done := true;
      if phase < STREAM {
        phase := STREAM;
      }
      if ArtistDone() && SongDone() {
        active := false;
      }
    }

    /** A live tick: one more letter, and the lockout gate the first time few enough are left. */
    method LiveTick(coin: bool) returns (lock: bool)
      modifies this`artistRevealed, this`songRevealed, this`nextField, this`phase, this`lockedOut
      ensures View() == LetterTick(old(View()), coin)
      ensures lock == (!old(lockedOut) && lockedOut)
    {
      hide RevealOne;
      var more := RevealOneLetter(coin);
      if more && ArtistDone() && SongDone() {
        phase := DONE;
      }
      var hidden := (|artistOrder| - artistRevealed) + (|songOrder| - songRevealed);
      if hidden < 0 {
        hidden := 0;
      }
      lock := !lockedOut && hidden <= cfg.lockoutChars;
      if lock {
        lockedOut := true;
      }
    }

    /**
     * revealTick: `lock` closes buzzing for the rest of the round, `finished`
     * schedules the automatic karaoke.
     */
    method LetterDue(live: bool, coin: bool) returns (lock: bool, finished: bool)
      modifies this
      ensures View() == R.Step(old(View()), Letter(live, coin))
      ensures lock == LocksOut(old(View()), Letter(live, coin))
      ensures finished == (live && old(active) && !active)
    {
      hide RevealOne, Remaining;
      lock, finished := false, false;
      if !active {
        return;
      }
      if live {
        lock := LiveTick(coin);
      }
      if ArtistDone() && SongDone() {
        active := false;
        finished := live;
      }
    }

    method RevealFieldFully(songField: bool)
      modifies this`artistRevealed, this`songRevealed, this`phase
      ensures View() == R.Step(old(View()), FieldFully(songField))
    {
      if !active {
        return;
      }
      if songField {
        songRevealed := |songOrder|;
      } else {
        artistRevealed := |artistOrder|;
      }
      if ArtistDone() && SongDone() {
        phase := DONE;
      }
    }

    method Rearm(config: Config)
      requires !active && !finalizing
      modifies this`artistRevealed, this`songRevealed, this`nextField, this`phase, this`phase1Done, this`lockedOut,
               this`year, this`showYear, this`cfg
      ensures LettersView() == Letters(0, 0, false)
      ensures phase == 0 && !phase1Done && !lockedOut && year == 0 && !showYear && cfg == Clamp(config)
    {
      artistRevealed, songRevealed, nextField := 0, 0, 0;
      phase, phase1Done, lockedOut := 0, false, false;
      year, showYear, cfg := 0, false, Clamp(config);
    }

    method FinalizeReveal(config: Config)
      modifies this
      ensures View() == R.Step(old(View()), Finalize(config))
    {
      if !active && !finalizing {
        Rearm(config);
      }
      finalizing := true;
      artistRevealed := |artistOrder|;
      songRevealed := |songOrder|;
      phase := DONE;
      active := false;
    }

    method Frame() returns (f: R.Frame)
      requires R.Valid(View())
      ensures f == CurrentMask(View())
    {
      var hint := if showYear then year else 0;
      if phase == NOISE {
        var block := new string[BLOCK_WIDTH];
        for i := 0 to BLOCK_WIDTH
          invariant forall j :: 0 <= j < i ==> block[j] == ""
        {
          block[i] := "";
        }
        assert block[..] == seq(BLOCK_WIDTH, _ => "");
        return R.Frame.Frame(NOISE, BLOCK_WIDTH, BLOCK_WIDTH, block[..], block[..], false, cfg.ease, hint);
      }
      var a := BuildFieldMask(artist, artistOrder, artistRevealed);
      var b := BuildFieldMask(song, songOrder, songRevealed);
      return R.Frame.Frame(phase, |artist|, |song|, a, b, finalizing || phase == DONE, cfg.ease, hint);
    }
  }
}
