/**
 * The game-over watcher: a one-way latch that fires when either tracked
 * player's health is at or below zero, freezes the engine's time scale and
 * shows the game-over screen.
 *
 * `Time.timeScale` is an engine global; here it is a field of the watcher.
 * The check shows the screen without testing that one is assigned, so a
 * missing screen raises a null-reference fault after the latch and the time
 * scale are already set; the methods report that fault as a result.
 */
module MatchEnd {
  import Health

  /** The fields the watcher changes: the latch, the time scale, and the screen (present, active). */
  datatype WatchState = WatchState(isGameOver: bool, timeScale: real, hasUI: bool, uiActive: bool)

  /** The time scale Unity starts a scene with. */
  const NormalTimeScale: real := 1.0

  /** Start: hide the screen when there is one. */
  function AfterStart(w: WatchState): (r: WatchState)
    ensures r.hasUI ==> !r.uiActive
    ensures !w.hasUI ==> r == w
    ensures r.isGameOver == w.isGameOver && r.timeScale == w.timeScale && r.hasUI == w.hasUI
  {
    if w.hasUI then w.(uiActive := false) else w
  }

  /** The condition GameOverCheck tests. */
  predicate SomeoneDown(h1: int, h2: int) {
    h1 <= 0 || h2 <= 0
  }

  /** GameOverCheck: latch, freeze time and show the screen when some player is down; otherwise nothing. */
  function AfterCheck(w: WatchState, h1: int, h2: int): (r: WatchState)
    ensures SomeoneDown(h1, h2) ==> r.isGameOver && r.timeScale == 0.0
    ensures SomeoneDown(h1, h2) && w.hasUI ==> r.uiActive
    ensures !SomeoneDown(h1, h2) ==> r == w
    ensures r.hasUI == w.hasUI && (!w.hasUI ==> r.uiActive == w.uiActive)
  {
    if SomeoneDown(h1, h2) then
      w.(isGameOver := true, timeScale := 0.0, uiActive := if w.hasUI then true else w.uiActive)
    else w
  }

  /** Whether GameOverCheck dereferences a missing screen. */
  predicate CheckFaults(w: WatchState, h1: int, h2: int) {
    SomeoneDown(h1, h2) && !w.hasUI
  }

  /** Update's guard, as written: each player's test is guarded by the latch separately. */
  predicate CallsCheck(w: WatchState, h1: int, h2: int) {
    (!w.isGameOver && h1 <= 0) || (!w.isGameOver && h2 <= 0)
  }

  /** Update: call GameOverCheck while the latch is open and some player is down. */
  function AfterUpdate(w: WatchState, h1: int, h2: int): (r: WatchState)
    ensures CallsCheck(w, h1, h2) <==> !w.isGameOver && SomeoneDown(h1, h2)
    ensures w.isGameOver ==> r == w
    ensures r.isGameOver <==> w.isGameOver || SomeoneDown(h1, h2)
    ensures r != w ==> r.isGameOver && r.timeScale == 0.0
    ensures r.hasUI == w.hasUI
  {
    if CallsCheck(w, h1, h2) then AfterCheck(w, h1, h2) else w
  }

  /** The two health values one Update reads. */
  datatype Reading = Reading(h1: int, h2: int)

  predicate Down(r: Reading) {
    SomeoneDown(r.h1, r.h2)
  }

  /** The watcher after one Update per reading. */
  function Watch(w: WatchState, readings: seq<Reading>): WatchState
    decreases |readings|
  {
    if readings == [] then w
    else Watch(AfterUpdate(w, readings[0].h1, readings[0].h2), readings[1..])
  }

  /** How many of those Updates call GameOverCheck. */
  function CheckCalls(w: WatchState, readings: seq<Reading>): nat
    decreases |readings|
  {
    if readings == [] then 0
    else (if CallsCheck(w, readings[0].h1, readings[0].h2) then 1 else 0)
         + CheckCalls(AfterUpdate(w, readings[0].h1, readings[0].h2), readings[1..])
  }

  /**
   * The latch is one-way and fires once: a closed latch makes every Update a
   * no-op; from an open one, Updates call GameOverCheck at most once, exactly
   * when some reading has a player down, and the game then ends frozen.
   */
  lemma {:induction false} LatchFiresOnce(w: WatchState, readings: seq<Reading>)
    ensures w.isGameOver ==> CheckCalls(w, readings) == 0 && Watch(w, readings) == w
    ensures CheckCalls(w, readings) <= 1
    ensures !w.isGameOver ==>
              (CheckCalls(w, readings) == 1 <==> exists i :: 0 <= i < |readings| && Down(readings[i]))
    ensures Watch(w, readings).isGameOver <==> w.isGameOver || exists i :: 0 <= i < |readings| && Down(readings[i])
    ensures Watch(w, readings).isGameOver && !w.isGameOver ==> Watch(w, readings).timeScale == 0.0
    decreases |readings|
  {
    if readings != [] {
      var r0 := readings[0];
      var rest := readings[1..];
      var w' := AfterUpdate(w, r0.h1, r0.h2);
      LatchFiresOnce(w', rest);
      assert forall i :: 0 <= i < |rest| ==> rest[i] == readings[i + 1];
      if exists i :: 0 <= i < |rest| && Down(rest[i]) {
        var i :| 0 <= i < |rest| && Down(rest[i]);
        assert Down(readings[i + 1]);
      }
      if Down(r0) {
        assert w'.isGameOver;
      } else {
        assert w' == w;
        if exists i :: 0 <= i < |readings| && Down(readings[i]) {
          var i :| 0 <= i < |readings| && Down(readings[i]);
          assert i != 0 && Down(rest[i - 1]);
        }
      }
    }
  }

  /** Both players going down on the same frame ends the game with one call to GameOverCheck. */
  lemma BothDownOnSameFrame(w: WatchState, h1: int, h2: int, later: seq<Reading>)
    requires !w.isGameOver && h1 <= 0 && h2 <= 0
    ensures CheckCalls(w, [Reading(h1, h2)] + later) == 1
    ensures Watch(w, [Reading(h1, h2)] + later).isGameOver
  {
    assert ([Reading(h1, h2)] + later)[1..] == later;
    LatchFiresOnce(AfterUpdate(w, h1, h2), later);
  }

  /** A player whose health system has died, with its invariant intact, ends the game on the next Update. */
  lemma DeathEndsMatch(w: WatchState, p1: Health.HealthState, p2: Health.HealthState)
    requires Health.Consistent(p1) && p1.isDead
    ensures AfterUpdate(w, p1.currentHealth, p2.currentHealth).isGameOver
    ensures AfterUpdate(w, p2.currentHealth, p1.currentHealth).isGameOver
  {
  }

  class GameOver {
    var player1Health: Health.HealthSystem
    var player2Health: Health.HealthSystem
    /** Whether GameOverUI is assigned, and whether it is active. */
    var hasUI: bool
    var uiActive: bool
    var isGameOver: bool
    /** Time.timeScale. */
    var timeScale: real

    ghost function State(): WatchState
      reads this
    {
      WatchState(isGameOver, timeScale, hasUI, uiActive)
    }

    /** The watcher as the scene loads it: the latch open and time running normally. */
    constructor (player1Health: Health.HealthSystem, player2Health: Health.HealthSystem, hasUI: bool, uiActive: bool)
      ensures State() == WatchState(false, NormalTimeScale, hasUI, uiActive)
      ensures this.player1Health == player1Health && this.player2Health == player2Health
    {
      this.player1Health := player1Health;
      this.player2Health := player2Health;
      this.hasUI := hasUI;
      this.uiActive := uiActive;
      isGameOver := false;
      timeScale := NormalTimeScale;
    }

    method Start()
      modifies this`uiActive
      ensures State() == AfterStart(old(State()))
    {
      if hasUI {
        uiActive := false;
      }
    }

    /** Update; `fault` reports the null-reference fault of the check it may call. */
    method Update() returns (fault: bool)
      modifies this`isGameOver, this`timeScale, this`uiActive
      ensures State() == AfterUpdate(old(State()), player1Health.currentHealth, player2Health.currentHealth)
      ensures fault <==> CallsCheck(old(State()), player1Health.currentHealth, player2Health.currentHealth)
                         && CheckFaults(old(State()), player1Health.currentHealth, player2Health.currentHealth)
    {
      fault := false;
      if (!isGameOver && player1Health.currentHealth <= 0) || (!isGameOver && player2Health.currentHealth <= 0) {
        fault := GameOverCheck();
      }
    }

    method GameOverCheck() returns (fault: bool)
      modifies this`isGameOver, this`timeScale, this`uiActive
      ensures State() == AfterCheck(old(State()), player1Health.currentHealth, player2Health.currentHealth)
      ensures fault <==> CheckFaults(old(State()), player1Health.currentHealth, player2Health.currentHealth)
    {
      fault := false;
      if player1Health.currentHealth <= 0 || player2Health.currentHealth <= 0 {
        isGameOver := true;
        timeScale := 0.0;
        if hasUI {
          uiActive := true;
        } else {
          fault := true;
        }
      }
    }
  }
}
