/**
 * The game session object (script.js: the `state` object and the parts of
 * rollDice, its animation callback and resetGame that change it). Each
 * method is proved against the matching function of module Game.
 */
module Session {
  import opened Wrappers
  import opened Faces
  import opened Spin
  import opened Places
  import opened Game

  class GameSession {
    /** One optional value per die, ten-thousands first. */
    var results: seq<Option<int>>
    /** Set while a roll animation runs; guards against a second roll. */
    var isRolling: bool
    /** Roll animations whose frame callbacks are still scheduled, oldest first. */
    var pending: seq<Flight>

    function Snapshot(): State
      reads this
    {
      State(results, isRolling, pending)
    }

    ghost predicate Valid()
      reads this
    {
      Coherent(Snapshot())
    }

    /** A fresh game: five empty slots, not rolling. */
    constructor ()
      ensures Valid() && Snapshot() == Initial
    {
      results := NoResults;
      isRolling := false;
      pending := [];
    }

    /**
     * A click on die `i`, with the random draws passed in: the value `v`, the
     * spin direction and the count of extra turns on each axis.
     */
    method StartRoll(i: nat, v: int, dirX: int, dirY: int, kX: int, kY: int) returns (accepted: bool)
      requires Valid() && i < Slots && IsDraw(v, dirX, dirY, kX, kY)
      modifies this
      ensures Valid()
      ensures accepted == Accepts(old(Snapshot()), i)
      ensures Snapshot() == Roll(old(Snapshot()), i, v, dirX, dirY, kX, kY)
    {
      if results[i] != None || isRolling {
        return false;
      }
      isRolling := true;
      results := results[i := Some(v)];
      var target := RotationForValue(v).value;
      var final := SpunPose(target, kX, dirX, kY, dirY);
      pending := pending + [Flight(i, v, target, final)];
      accepted := true;
    }

    /**
     * The oldest animation reaches its end: it snaps its die to the target
     * pose, clears the busy flag, and then the hint and the completion check
     * are refreshed from the slots.
     */
    method FinishRoll() returns (die: nat, pose: Rotation, hint: string, outcome: Option<Reveal>)
      requires Valid() && pending != []
      modifies this
      ensures Valid() && Snapshot() == Finish(old(Snapshot()))
      ensures die == old(pending[0].die) && pose == old(Landing(Snapshot()))
      ensures hint == HintText(results) && outcome == CheckAllRolled(results)
    {
      die, pose := pending[0].die, pending[0].target;
      pending := pending[1..];
      isRolling := false;
      hint := HintText(results);
      outcome := CheckAllRolled(results);
    }

    /** Restart: every slot empty and the busy flag clear. Running animations go on. */
    method Reset()
      requires Valid()
      modifies this
      ensures Valid() && Snapshot() == Game.Reset(old(Snapshot()))
    {
      results := NoResults;
      isRolling := false;
    }
  }

  /**
   * A client of the session: die 0 is clicked, clicked again during its own
   * animation, and its value stays once the animation has ended.
   */
  method RepeatedClickScenario(v: int, w: int) returns (first: bool, again: bool, settled: Option<int>)
    requires IsPip(v) && IsPip(w)
    ensures first && !again && settled == Some(v)
  {
    var game := new GameSession();
    first := game.StartRoll(0, v, 1, -1, 3, 4);
    again := game.StartRoll(0, w, -1, 1, 4, 3);
    var die, pose, hint, outcome := game.FinishRoll();
    var late := game.StartRoll(0, w, 1, 1, 3, 3);
    assert !late;
    settled := game.results[0];
  }
}
