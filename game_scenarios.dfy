/**
 * Play-throughs of the mini-game model: the documented scenarios of a session, and the
 * two ways the component departs from its evident intent.
 */
module GameScenarios {
  import opened Wrappers
  import opened Challenges
  import opened Game

  /** A new game started at `now`: the fresh session on the first challenge. */
  method StartedGame(now: int) returns (g: QuantumGame)
    ensures fresh(g) && g.Valid() && !g.showResult
    ensures g.state == Fresh(now) && g.current == Some(Challenge1) && g.dropped == map[]
  {
    g := new QuantumGame();
    g.StartGame(now);
    FirstOfCatalogue();
  }

  /** Starting a game: level 1, no score, three lives, sixty seconds, playing. */
  method StartScenario(now: int) returns (s: Session)
    ensures s.level == 1 && s.score == 0 && s.lives == 3 && s.time == 60
    ensures s.isPlaying && !s.gameFinished && s.startTime == Some(now)
  {
    var g := new QuantumGame();
    g.StartGame(now);
    s := g.state;
  }

  /** The right answer on the first challenge: 100 points, one level done, then level 2. */
  method FirstChallengeSolved() returns (s: Session, advanced: Session)
    ensures s.score == 100 && s.completed == 1 && s.correctAnswers == 1 && s.level == 1
    ensures advanced.level == 2 && advanced.score == 100
  {
    var g := StartedGame(0);
    g.HandleDrop("e1", Some("s1"));
    assert g.dropped == map["s1" := "+"];
    var scheduled := g.CheckSolution(1000);
    s := g.state;
    g.AdvanceAfterDelay(2500);
    advanced := g.state;
  }

  /** A wrong answer costs a life and leaves the score at 0. */
  method FirstChallengeMissed() returns (s: Session)
    ensures s.lives == 2 && s.score == 0 && s.wrongAnswers == 1 && !s.gameFinished
  {
    var g := StartedGame(0);
    g.HandleDrop("e2", Some("s1"));
    assert g.dropped == map["s1" := "-"];
    assert !SlotMatched(Challenge1.slots[0], g.dropped);
    var scheduled := g.CheckSolution(1000);
    s := g.state;
  }

  /** Three wrong answers end the game at once, with time still on the clock. */
  method LivesRunOut() returns (s: Session, resultsShown: bool)
    ensures s.lives == 0 && s.gameFinished && s.endTime == Some(3000) && s.time == 60
    ensures resultsShown
  {
    var g := StartedGame(0);
    assert !SlotMatched(Challenge1.slots[0], map[]);
    var scheduled := g.CheckSolution(1000);
    assert g.state == Penalized(Fresh(0));
    scheduled := g.CheckSolution(2000);
    assert g.state == Penalized(Penalized(Fresh(0)));
    scheduled := g.CheckSolution(3000);
    s := g.state;
    resultsShown := g.showResult;
  }

  /**
   * Sixty ticks take the clock to 0, the sixty-first ends the game with no level done,
   * and further ticks change nothing.
   */
  method TimeRunsOut() returns (s: Session, later: Session)
    ensures s.time == 0 && s.gameFinished && s.completed == 0 < ChallengeCount
    ensures later == s
  {
    var g := StartedGame(0);
    for i := 0 to 60
      invariant g.Valid()
      invariant g.state == Fresh(0).(time := 60 - i)
    {
      g.Tick(1000 * (i + 1));
    }
    g.Tick(61000);
    s := g.state;
    g.Tick(62000);
    later := g.state;
  }

  /** `1 + 2 + ... + n`. */
  function Triangle(n: nat): nat {
    if n == 0 then 0 else Triangle(n - 1) + n
  }

  /** The first element offering `v`. */
  function OfferingIndex(elements: seq<Element>, v: string): (j: nat)
    requires Offers(elements, v)
    ensures j < |elements| && elements[j].value == v
  {
    if elements[0].value == v then 0 else 1 + OfferingIndex(elements[1..], v)
  }

  /** Finding an element by an id that is unique among the elements gives that element. */
  lemma FindUniqueId(elements: seq<Element>, j: nat)
    requires DistinctElementIds(elements) && j < |elements|
    ensures FindElement(elements, elements[j].id) == Some(elements[j])
  {
    var r := FindElement(elements, elements[j].id);
    var k :| 0 <= k < |elements| && elements[k] == r.value
             && forall m :: 0 <= m < k ==> elements[m].id != elements[j].id;
    if k < j {
      assert elements[k].id == elements[j].id;
    }
  }

  /** Solving slot `i` keeps the earlier slots solved when slot ids are distinct. */
  lemma SolvingKeepsSolved(slots: seq<Slot>, dropped: map<string, string>, i: nat)
    requires DistinctSlotIds(slots) && i < |slots|
    requires forall k :: 0 <= k < i ==> SlotMatched(slots[k], dropped)
    ensures forall k :: 0 <= k <= i ==> SlotMatched(slots[k], dropped[slots[i].id := slots[i].correct])
  {
  }

  /** Drops, for every slot of the loaded challenge, an element offering its answer. */
  method SolveCurrent(g: QuantumGame)
    requires g.Valid() && g.current.Some? && WellFormed(g.current.value)
    modifies g
    ensures g.Valid()
    ensures g.state == old(g.state) && g.current == old(g.current) && g.showResult == old(g.showResult)
    ensures AllMatched(g.current.value.slots, g.dropped)
  {
    var c := g.current.value;
    var i := 0;
    while i < |c.slots|
      invariant 0 <= i <= |c.slots|
      invariant g.Valid() && g.current == Some(c)
      invariant g.state == old(g.state) && g.showResult == old(g.showResult)
      invariant forall k :: 0 <= k < i ==> SlotMatched(c.slots[k], g.dropped)
    {
      var j := OfferingIndex(c.elements, c.slots[i].correct);
      FindUniqueId(c.elements, j);
      SolvingKeepsSolved(c.slots, g.dropped, i);
      g.HandleDrop(c.elements[j].id, Some(c.slots[i].id));
      i := i + 1;
    }
  }

  /** Solving the loaded challenge and waiting for the advance: the score, and the next level. */
  method PlayLevel(g: QuantumGame, correctedAdvance: bool)
    requires g.Valid() && g.state.isPlaying && !g.state.gameFinished
    requires forall i :: 0 <= i < |g.challenges| ==> WellFormed(g.challenges[i])
    modifies g
    ensures g.Valid() && g.state == Advanced(Rewarded(old(g.state)), 0)
    ensures old(g.state.level) < ChallengeCount || !correctedAdvance ==> g.showResult == old(g.showResult)
    ensures old(g.state.level) == ChallengeCount && correctedAdvance ==> g.showResult
  {
    SolveCurrent(g);
    var scheduled := g.CheckSolution(0);
    if correctedAdvance {
      g.AdvanceAfterDelayShowingResults(0);
    } else {
      g.AdvanceAfterDelay(0);
    }
  }
  /**
   * Solving every challenge of a well-formed list in turn, from a fresh game: fifteen
   * levels done, 100·(1 + ... + 15) = 12000 points, lives and time untouched; the results
   * open only with the corrected advance.
   */
  method PlayThrough(g: QuantumGame, correctedAdvance: bool)
    requires g.Valid() && g.state == Fresh(0) && !g.showResult
    requires forall i :: 0 <= i < |g.challenges| ==> WellFormed(g.challenges[i])
    modifies g
    ensures g.state.gameFinished && g.state.completed == ChallengeCount && g.state.level == ChallengeCount
    ensures g.state.score == 12000 && g.state.lives == 3 && g.state.time == 60 && g.state.endTime == Some(0)
    ensures g.showResult == correctedAdvance
  {
    var level := 1;
    while level < ChallengeCount
      invariant 1 <= level <= ChallengeCount
      invariant g.Valid() && !g.showResult
      invariant g.state == Fresh(0).(level := level, score := 100 * Triangle(level - 1),
                                     completed := level - 1, correctAnswers := level - 1)
    {
      PlayLevel(g, correctedAdvance);
      level := level + 1;
    }
    assert Triangle(ChallengeCount) == 120;
    PlayLevel(g, correctedAdvance);
  }

  /** The play-through on the site's fifteen challenges. */
  method PlayThroughCatalogue(correctedAdvance: bool) returns (s: Session, resultsShown: bool)
    ensures s.gameFinished && s.completed == |Catalogue| && s.level == |Catalogue|
    ensures s.score == 12000 && s.lives == 3 && s.time == 60 && s.endTime == Some(0)
    ensures resultsShown == correctedAdvance
  {
    var g := new QuantumGame();
    g.StartGame(0);
    CatalogueWellFormed();
    PlayThrough(g, correctedAdvance);
    CatalogueSize();
    s := g.state;
    resultsShown := g.showResult;
  }

  /**
   * After the lives run out and the results are closed, the board still accepts a
   * submission: a fourth wrong answer takes the lives to -1 and moves the end time.
   */
  method LivesBelowZeroAfterFinish() returns (s: Session)
    ensures s.lives == -1 && s.wrongAnswers == 4 && s.endTime == Some(4000)
  {
    var g := StartedGame(0);
    assert !SlotMatched(Challenge1.slots[0], map[]);
    var scheduled := g.CheckSolution(1000);
    assert g.state == Penalized(Fresh(0));
    scheduled := g.CheckSolution(2000);
    assert g.state == Penalized(Penalized(Fresh(0)));
    scheduled := g.CheckSolution(3000);
    assert g.state == Finished(Penalized(Penalized(Penalized(Fresh(0)))), 3000);
    g.CloseResults();
    assert g.current == Some(Challenge1) && g.dropped == map[];
    scheduled := g.CheckSolution(4000);
    s := g.state;
  }

  /** With the guarded submission the same moves stop at 0 lives and keep the end time. */
  method GuardedLivesStayAtZero() returns (s: Session)
    ensures s.lives == 0 && s.wrongAnswers == 3 && s.endTime == Some(3000)
  {
    var g := StartedGame(0);
    assert !SlotMatched(Challenge1.slots[0], map[]);
    var scheduled := g.CheckSolutionGuarded(1000);
    assert g.state == Penalized(Fresh(0));
    scheduled := g.CheckSolutionGuarded(2000);
    assert g.state == Penalized(Penalized(Fresh(0)));
    scheduled := g.CheckSolutionGuarded(3000);
    assert g.state == Finished(Penalized(Penalized(Penalized(Fresh(0)))), 3000);
    g.CloseResults();
    assert g.current == Some(Challenge1) && g.dropped == map[];
    scheduled := g.CheckSolutionGuarded(4000);
    s := g.state;
  }
}
