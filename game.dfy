/**
 * The state machine of the JavaScript mini-game (components/game/quantum-game.js).
 *
 * The session record `gameState` is a `Session` value that every transition replaces,
 * and the component's other state (the loaded challenge, the dropped answers, whether
 * the results are shown) are fields of `QuantumGame`. The one-second interval and the
 * 1.5 s delayed level advance are methods the caller invokes (`Tick`,
 * `AdvanceAfterDelay`); timestamps are integer parameters.
 */
module Game {
  import opened Wrappers
  import opened Challenges

  /** `gameState`. */
  datatype Session = Session(
    level: int,
    score: int,
    lives: int,
    time: int,
    completed: int,
    isPlaying: bool,
    gameFinished: bool,
    correctAnswers: int,
    wrongAnswers: int,
    startTime: Option<int>,
    endTime: Option<int>)

  /** Lives and seconds a game starts with. */
  const StartLives := 3
  const StartTime := 60

  /** The state before the first game. */
  const Idle := Session(1, 0, StartLives, StartTime, 0, false, false, 0, 0, None, None)

  /** The record `startGame` and `resetGame` write: level 1, nothing scored, full lives and time. */
  function Fresh(now: int): Session {
    Session(1, 0, StartLives, StartTime, 0, true, false, 0, 0, Some(now), None)
  }

  /** The update after a correct submission. */
  function Rewarded(s: Session): Session {
    s.(score := s.score + 100 * s.level, completed := s.completed + 1,
       correctAnswers := s.correctAnswers + 1)
  }

  /** The update after a wrong submission (`Math.max(0, score - 50)`). */
  function Penalized(s: Session): Session {
    s.(lives := s.lives - 1, score := if s.score - 50 > 0 then s.score - 50 else 0,
       wrongAnswers := s.wrongAnswers + 1)
  }

  /** The update `finishGame` makes. */
  function Finished(s: Session, now: int): Session {
    s.(gameFinished := true, endTime := Some(now))
  }

  /** The delayed update after a correct submission: next level, or the end after the last one. */
  function Advanced(s: Session, now: int): Session {
    if s.level < ChallengeCount then s.(level := s.level + 1) else Finished(s, now)
  }

  /** The invariant the session keeps. */
  predicate SessionOk(s: Session) {
    && 1 <= s.level <= ChallengeCount
    && s.score >= 0
    && 0 <= s.time <= StartTime
    && 0 <= s.completed == s.correctAnswers
    && s.wrongAnswers >= 0
    && s.lives <= StartLives
    && (s.isPlaying ==> s.startTime.Some?)
    && (s.gameFinished ==> s.endTime.Some?)
  }

  /** Every update keeps the session invariant; the level never leaves [1, 15]. */
  lemma UpdatesKeepSessionOk(s: Session, now: int)
    requires SessionOk(s)
    ensures SessionOk(Rewarded(s)) && SessionOk(Penalized(s))
    ensures SessionOk(Finished(s, now)) && SessionOk(Advanced(s, now))
    ensures SessionOk(Fresh(now)) && SessionOk(Idle)
  {
  }

  /** Success scores 100 points per level; failure never takes the score below 0. */
  lemma ScoreChanges(s: Session)
    requires SessionOk(s)
    ensures Rewarded(s).score == s.score + 100 * s.level >= s.score + 100
    ensures Rewarded(s).completed == s.completed + 1 && Rewarded(s).correctAnswers == s.correctAnswers + 1
    ensures Rewarded(s).lives == s.lives && Rewarded(s).level == s.level
    ensures Penalized(s).score == (if s.score >= 50 then s.score - 50 else 0)
    ensures Penalized(s).lives == s.lives - 1 && Penalized(s).wrongAnswers == s.wrongAnswers + 1
  {
  }

  /** A slot is solved when the value dropped on it equals its answer; an empty slot never is. */
  predicate SlotMatched(slot: Slot, dropped: map<string, string>) {
    slot.id in dropped && dropped[slot.id] == slot.correct
  }

  /** The number of solved slots. */
  function MatchCount(slots: seq<Slot>, dropped: map<string, string>): nat
  {
    if slots == [] then 0
    else MatchCount(slots[..|slots| - 1], dropped)
         + (if SlotMatched(slots[|slots| - 1], dropped) then 1 else 0)
  }

  predicate AllMatched(slots: seq<Slot>, dropped: map<string, string>) {
    forall i :: 0 <= i < |slots| ==> SlotMatched(slots[i], dropped)
  }

  /** The count reaches the number of slots exactly when every slot is solved. */
  lemma {:induction false} MatchCountFull(slots: seq<Slot>, dropped: map<string, string>)
    ensures MatchCount(slots, dropped) <= |slots|
    ensures MatchCount(slots, dropped) == |slots| <==> AllMatched(slots, dropped)
  {
    if slots != [] {
      var init := slots[..|slots| - 1];
      MatchCountFull(init, dropped);
      if AllMatched(slots, dropped) {
        assert forall i :: 0 <= i < |init| ==> init[i] == slots[i];
      }
      if MatchCount(slots, dropped) == |slots| {
        assert SlotMatched(slots[|slots| - 1], dropped);
        forall i | 0 <= i < |slots| ensures SlotMatched(slots[i], dropped) {
          if i < |init| {
            assert init[i] == slots[i];
          }
        }
      }
    }
  }

  /** `currentChallenge.slots.forEach(...)`: counts the solved slots. */
  method CountCorrectSlots(slots: seq<Slot>, dropped: map<string, string>) returns (correct: nat)
    ensures correct == MatchCount(slots, dropped)
    ensures correct == |slots| <==> AllMatched(slots, dropped)
  {
    correct := 0;
    var i := 0;
    while i < |slots|
      invariant 0 <= i <= |slots|
      invariant correct == MatchCount(slots[..i], dropped)
    {
      assert slots[..i + 1][..i] == slots[..i];
      if slots[i].id in dropped && dropped[slots[i].id] == slots[i].correct {
        correct := correct + 1;
      }
      i := i + 1;
    }
    assert slots[..i] == slots;
    MatchCountFull(slots, dropped);
  }

  /** `elements.find((el) => el.id === elementId)`. */
  function FindElement(elements: seq<Element>, id: string): (r: Option<Element>)
    ensures r.Some? ==> r.value in elements && r.value.id == id && Offers(elements, r.value.value)
    ensures r.None? <==> forall j :: 0 <= j < |elements| ==> elements[j].id != id
    ensures r.Some? ==> exists j :: 0 <= j < |elements| && elements[j] == r.value
                                   && forall k :: 0 <= k < j ==> elements[k].id != id
  {
    if elements == [] then None
    else if elements[0].id == id then Some(elements[0])
    else
      var r := FindElement(elements[1..], id);
      if r.Some? then
        var j :| 0 <= j < |elements[1..]| && elements[1..][j] == r.value
                 && forall k :: 0 <= k < j ==> elements[1..][k].id != id;
        assert elements[j + 1] == r.value;
        r
      else r
  }

  /** Every value dropped so far is offered by the challenge. */
  predicate DroppedFrom(dropped: map<string, string>, c: Challenge) {
    forall k :: k in dropped ==> Offers(c.elements, dropped[k])
  }

  /** A truthy slot id: present and not the empty string. */
  predicate Truthy(slotId: Option<string>) {
    slotId.Some? && slotId.value != ""
  }

  class QuantumGame {
    var state: Session
    /** `currentChallenge`. */
    var current: Option<Challenge>
    /** `droppedElements`: slot id to dropped value. */
    var dropped: map<string, string>
    var showResult: bool
    /** The imported `challenges` list the component plays through. */
    const challenges: seq<Challenge>

    /**
     * While a game runs the loaded challenge is the one for the level; before the first
     * game nothing is loaded; dropped values come from the loaded challenge.
     */
    predicate Consistent()
      reads this
    {
      && |challenges| == ChallengeCount
      && SessionOk(state)
      && (state.isPlaying && !state.gameFinished ==> current == Some(challenges[state.level - 1]))
      && (!state.isPlaying ==> current.None? && dropped == map[])
      && (current.Some? ==> current.value in challenges && DroppedFrom(dropped, current.value))
    }

    /** `Consistent`, and a running game has a life left. */
    predicate Valid()
      reads this
    {
      Consistent() && (state.isPlaying && !state.gameFinished ==> state.lives >= 1)
    }

    /** The component's first render (quantum-game.js:6-27). */
    constructor()
      ensures Valid()
      ensures state == Idle && current == None && dropped == map[] && !showResult
      ensures challenges == Catalogue
    {
      challenges := Catalogue;
      CatalogueSize();
      state := Idle;
      current := None;
      dropped := map[];
      showResult := false;
    }

    /** `loadChallenge(level)`: loads `challenges[level - 1]` when it exists and clears the drops. */
    method LoadChallenge(level: int)
      modifies this
      ensures state == old(state) && showResult == old(showResult)
      ensures 1 <= level <= |challenges| ==> current == Some(challenges[level - 1]) && dropped == map[]
      ensures !(1 <= level <= |challenges|) ==> current == old(current) && dropped == old(dropped)
    {
      if 1 <= level <= |challenges| {
        current := Some(challenges[level - 1]);
        dropped := map[];
      }
    }

    /**
     * `startGame` once its 500 ms transition has elapsed: a fresh session, and the
     * playing-state effect loads the first challenge.
     */
    method StartGame(now: int)
      requires Valid()
      modifies this
      ensures Valid()
      ensures state == Fresh(now)
      ensures current == Some(challenges[0]) && dropped == map[]
      ensures showResult == old(showResult)
    {
      state := Fresh(now);
      LoadChallenge(state.level);
    }

    /** `restartGame`: hides the results and starts again. */
    method RestartGame(now: int)
      requires Valid()
      modifies this
      ensures Valid()
      ensures state == Fresh(now) && current == Some(challenges[0]) && dropped == map[]
      ensures !showResult
    {
      showResult := false;
      StartGame(now);
    }

    /** `resetGame`: the same fresh session with the drops cleared, back on the first challenge. */
    method ResetGame(now: int)
      requires Valid()
      modifies this
      ensures Valid()
      ensures state == Fresh(now)
      ensures current == Some(challenges[0]) && dropped == map[]
      ensures showResult == old(showResult)
    {
      state := Fresh(now);
      dropped := map[];
      LoadChallenge(state.level);
    }

    /** `finishGame`: stops the game, records its end and shows the results. */
    method FinishGame(now: int)
      requires Consistent()
      modifies this
      ensures Valid()
      ensures state == Finished(old(state), now) && showResult
      ensures current == old(current) && dropped == old(dropped)
    {
      state := Finished(state, now);
      showResult := true;
    }

    /** The results' close button and overlay. */
    method CloseResults()
      requires Valid()
      modifies this
      ensures Valid()
      ensures !showResult && state == old(state) && current == old(current) && dropped == old(dropped)
    {
      showResult := false;
    }

    /**
     * One tick of the interval, which runs while a game is playing and not finished:
     * one second less, or the end of the game once no time is left.
     */
    method Tick(now: int)
      requires Valid()
      modifies this
      ensures Valid()
      ensures current == old(current) && dropped == old(dropped)
      ensures !old(state.isPlaying && !state.gameFinished) ==> unchanged(this)
      ensures old(state.isPlaying && !state.gameFinished) && old(state.time) > 0 ==>
                state == old(state).(time := old(state.time) - 1) && showResult == old(showResult)
      ensures old(state.isPlaying && !state.gameFinished) && old(state.time) <= 0 ==>
                state == Finished(old(state), now) && showResult
      ensures state.time >= 0
    {
      if !(state.isPlaying && !state.gameFinished) {
        return;
      }
      if state.time <= 0 {
        FinishGame(now);
      } else {
        state := state.(time := state.time - 1);
      }
    }

    /**
     * `handleDrop(e, slotId)`: records the dragged element's value on the slot when the
     * element belongs to the challenge and the slot id is truthy; other slots keep theirs.
     */
    method HandleDrop(elementId: string, slotId: Option<string>)
      requires Valid() && current.Some?
      modifies this
      ensures Valid()
      ensures state == old(state) && current == old(current) && showResult == old(showResult)
      ensures var e := FindElement(old(current).value.elements, elementId);
              if e.Some? && Truthy(slotId) then dropped == old(dropped)[slotId.value := e.value.value]
              else dropped == old(dropped)
    {
      var element := FindElement(current.value.elements, elementId);
      if element.Some? && Truthy(slotId) {
        dropped := dropped[slotId.value := element.value.value];
      }
    }

    /**
     * `checkSolution`: with every slot solved it scores and reports that the delayed
     * advance is scheduled; otherwise it costs a life and 50 points, and ends the game
     * when the lives read before the update were at most 1.
     */
    method CheckSolution(now: int) returns (advanceScheduled: bool)
      requires Valid()
      modifies this
      ensures Valid()
      ensures old(current).None? ==> !advanceScheduled && unchanged(this)
      ensures current == old(current) && dropped == old(dropped)
      ensures old(current).Some? ==>
                var solved := AllMatched(old(current).value.slots, old(dropped));
                && advanceScheduled == solved
                && (solved ==> state == Rewarded(old(state)) && showResult == old(showResult))
                && (!solved && old(state.lives) > 1 ==>
                      state == Penalized(old(state)) && showResult == old(showResult))
                && (!solved && old(state.lives) <= 1 ==>
                      state == Finished(Penalized(old(state)), now) && showResult)
    {
      if current.None? {
        return false;
      }
      var slots := current.value.slots;
      var correct := CountCorrectSlots(slots, dropped);
      if correct == |slots| {
        state := Rewarded(state);
        advanceScheduled := true;
      } else {
        var livesBefore := state.lives;
        state := Penalized(state);
        advanceScheduled := false;
        if livesBefore <= 1 {
          FinishGame(now);
        }
      }
    }

    /**
     * The callback 1.5 s after a success: the next level (and, while the game runs, its
     * challenge), or after the last level the end of the game without opening the results.
     */
    method AdvanceAfterDelay(now: int)
      requires Valid()
      modifies this
      ensures Valid()
      ensures state == Advanced(old(state), now)
      ensures showResult == old(showResult)
      ensures old(state.level) < |challenges| && state.isPlaying && !state.gameFinished ==>
                current == Some(challenges[state.level - 1]) && dropped == map[]
      ensures !(old(state.level) < |challenges| && state.isPlaying && !state.gameFinished) ==>
                current == old(current) && dropped == old(dropped)
    {
      if state.level < |challenges| {
        state := state.(level := state.level + 1);
        if state.isPlaying && !state.gameFinished {
          LoadChallenge(state.level);
        }
      } else {
        state := Finished(state, now);
      }
    }

    /** The delayed advance with the last level finishing through `finishGame`, which shows the results. */
    method AdvanceAfterDelayShowingResults(now: int)
      requires Valid()
      modifies this
      ensures Valid()
      ensures state == Advanced(old(state), now)
      ensures old(state.level) >= |challenges| ==> showResult
      ensures old(state.level) < |challenges| ==> showResult == old(showResult)
      ensures old(state.level) < |challenges| && state.isPlaying && !state.gameFinished ==>
                current == Some(challenges[state.level - 1]) && dropped == map[]
      ensures !(old(state.level) < |challenges| && state.isPlaying && !state.gameFinished) ==>
                current == old(current) && dropped == old(dropped)
    {
      if state.level < |challenges| {
        state := state.(level := state.level + 1);
        if state.isPlaying && !state.gameFinished {
          LoadChallenge(state.level);
        }
      } else {
        FinishGame(now);
      }
    }

    /** The invariant the corrected submission keeps in addition: lives never go negative. */
    predicate ValidGuarded()
      reads this
    {
      Valid() && state.lives >= 0
    }

    /**
     * `checkSolution` guarded by the running game: after the end (results closed, board
     * still shown) a submission changes nothing.
     */
    method CheckSolutionGuarded(now: int) returns (advanceScheduled: bool)
      requires ValidGuarded()
      modifies this
      ensures ValidGuarded()
      ensures !old(state.isPlaying && !state.gameFinished) ==> !advanceScheduled && unchanged(this)
      ensures current == old(current) && dropped == old(dropped)
      ensures old(state.isPlaying && !state.gameFinished) ==>
                var solved := AllMatched(old(current).value.slots, old(dropped));
                && advanceScheduled == solved
                && (solved ==> state == Rewarded(old(state)))
                && (!solved && old(state.lives) > 1 ==> state == Penalized(old(state)))
                && (!solved && old(state.lives) <= 1 ==> state == Finished(Penalized(old(state)), now))
    {
      if !(state.isPlaying && !state.gameFinished) {
        return false;
      }
      advanceScheduled := CheckSolution(now);
    }
  }
}
