/**
 * The game session as a state machine over values (script.js: the `state`
 * object, rollDice, the end of its animation, resetGame). The session class
 * in module Session is proved against these functions.
 */
module Game {
  import opened Wrappers
  import opened Faces
  import opened Orientation
  import opened Spin
  import opened Places

  /**
   * A roll animation whose frame callbacks are still scheduled: the die, the
   * value already committed, the pose it snaps to at the end and the
   * over-rotated pose it spins to.
   */
  datatype Flight = Flight(die: nat, value: int, target: Rotation, final: Rotation)

  /** The result slots, the busy flag and the running animations, oldest first. */
  datatype State = State(results: seq<Option<int>>, isRolling: bool, pending: seq<Flight>)

  const NoResults: seq<Option<int>> := [None, None, None, None, None]

  const Initial: State := State(NoResults, false, [])

  /** The random draws of one roll, each within the range it is drawn from. */
  predicate IsDraw(v: int, dirX: int, dirY: int, kX: int, kY: int)
  {
    IsPip(v) && IsDirection(dirX) && IsDirection(dirY) && IsExtraTurns(kX) && IsExtraTurns(kY)
  }

  predicate IsFlight(fl: Flight)
  {
    fl.die < Slots && IsPip(fl.value) && RotationForValue(fl.value) == Some(fl.target)
    && IsSpinOf(fl.final, fl.target)
  }

  /** What every step keeps, a reset in the middle of a roll included. */
  predicate Coherent(s: State)
  {
    && |s.results| == Slots
    && (forall i :: 0 <= i < Slots && s.results[i].Some? ==> IsPip(s.results[i].value))
    && (forall k :: 0 <= k < |s.pending| ==> IsFlight(s.pending[k]))
  }

  /**
   * Rolls are serialised: at most one animation runs, the busy flag is set
   * exactly while one runs, and the die it animates already holds its value.
   */
  predicate Serial(s: State)
    requires Coherent(s)
  {
    && |s.pending| <= 1
    && (s.isRolling <==> |s.pending| == 1)
    && (|s.pending| == 1 ==> s.results[s.pending[0].die] == Some(s.pending[0].value))
  }

  /** The guard of rollDice: the slot is empty and no roll is in progress. */
  predicate Accepts(s: State, i: nat)
    requires i < |s.results|
    ensures Accepts(s, i) ==> Remaining(s.results) >= 1
    ensures Coherent(s) && Serial(s) && Accepts(s, i) ==> s.pending == []
  {
    s.results[i].None? && !s.isRolling
  }

  /**
   * A click on die `i`. A rejected click changes nothing; an accepted one
   * sets the busy flag, commits `v` to slot `i` at once and starts an
   * animation towards the pose showing `v`.
   */
  function Roll(s: State, i: nat, v: int, dirX: int, dirY: int, kX: int, kY: int): (t: State)
    requires Coherent(s) && i < Slots && IsDraw(v, dirX, dirY, kX, kY)
    ensures Coherent(t)
    ensures t == s <==> !Accepts(s, i)
    ensures Accepts(s, i) ==> t.isRolling && t.results[i] == Some(v)
    ensures Accepts(s, i) ==>
      var target := RotationForValue(v).value;
      t.pending == s.pending + [Flight(i, v, target, SpunPose(target, kX, dirX, kY, dirY))]
    ensures forall j :: 0 <= j < Slots && j != i ==> t.results[j] == s.results[j]
  {
    if !Accepts(s, i) then s
    else
      var target := RotationForValue(v).value;
      var final := SpunPose(target, kX, dirX, kY, dirY);
      State(s.results[i := Some(v)], true, s.pending + [Flight(i, v, target, final)])
  }

  /**
   * The oldest animation ends: it is dropped and the busy flag is cleared,
   * whichever roll is still running. The slots are not touched.
   */
  function Finish(s: State): (t: State)
    requires Coherent(s) && s.pending != []
    ensures Coherent(t)
    ensures t.results == s.results && !t.isRolling && t.pending == s.pending[1..]
  {
    State(s.results, false, s.pending[1..])
  }

  /** The pose the ending animation snaps the die to. */
  function Landing(s: State): Rotation
    requires s.pending != []
  {
    s.pending[0].target
  }

  /**
   * Restart: every slot empty, the busy flag clear, whatever came before.
   * An animation still running is not cancelled.
   */
  function Reset(s: State): (t: State)
    requires Coherent(s)
    ensures Coherent(t)
    ensures Remaining(t.results) == Slots && !t.isRolling
    ensures t.pending == s.pending
  {
    State(NoResults, false, s.pending)
  }

  /** The session starts serialised with nothing rolled. */
  lemma InitialIsSerial()
    ensures Coherent(Initial) && Serial(Initial) && Remaining(Initial.results) == Slots
  {
  }

  /** An accepted roll leaves exactly one die fewer to roll. */
  lemma RollFillsOneSlot(s: State, i: nat, v: int, dirX: int, dirY: int, kX: int, kY: int)
    requires Coherent(s) && i < Slots && IsDraw(v, dirX, dirY, kX, kY) && Accepts(s, i)
    ensures Remaining(Roll(s, i, v, dirX, dirY, kX, kY).results) == Remaining(s.results) - 1
  {
    FillOneSlot(s.results, i, v);
  }

  /** While a roll runs, every click is ignored, on any die. */
  lemma BusyIgnoresClicks(s: State, i: nat, v: int, dirX: int, dirY: int, kX: int, kY: int)
    requires Coherent(s) && Serial(s) && s.pending != []
    requires i < Slots && IsDraw(v, dirX, dirY, kX, kY)
    ensures Roll(s, i, v, dirX, dirY, kX, kY) == s
  {
  }

  /**
   * Clicking a die again while its own animation runs is ignored twice over:
   * its slot already holds the committed value, and the busy flag is set.
   */
  lemma OwnDieIgnoredWhileRolling(s: State, i: nat, v: int, dirX: int, dirY: int, kX: int, kY: int,
                                  w: int, eX: int, eY: int, mX: int, mY: int)
    requires Coherent(s) && Serial(s) && i < Slots && Accepts(s, i)
    requires IsDraw(v, dirX, dirY, kX, kY) && IsDraw(w, eX, eY, mX, mY)
    ensures var t := Roll(s, i, v, dirX, dirY, kX, kY);
      Serial(t) && t.results[i] == Some(v) && t.isRolling && Roll(t, i, w, eX, eY, mX, mY) == t
  {
  }

  /** Starting a roll keeps rolls serialised. */
  lemma RollKeepsSerial(s: State, i: nat, v: int, dirX: int, dirY: int, kX: int, kY: int)
    requires Coherent(s) && Serial(s) && i < Slots && IsDraw(v, dirX, dirY, kX, kY)
    ensures Serial(Roll(s, i, v, dirX, dirY, kX, kY))
  {
  }

  /** Ending the roll keeps rolls serialised and the session idle. */
  lemma FinishKeepsSerial(s: State)
    requires Coherent(s) && Serial(s) && s.pending != []
    ensures Serial(Finish(s)) && Finish(s).pending == []
  {
  }

  /**
   * At the end of a roll the die is snapped to a pose that shows its
   * committed value, and the last spun frame showed the same side: no drift.
   */
  lemma LandingShowsValue(s: State, f: Face)
    requires Coherent(s) && s.pending != []
    ensures IsQuarterPose(Landing(s)) && IsQuarterPose(s.pending[0].final)
    ensures FacesViewer(Landing(s), f) <==> FaceValue(f) == s.pending[0].value
    ensures FacesViewer(s.pending[0].final, f) <==> FacesViewer(Landing(s), f)
  {
    var fl := s.pending[0];
    assert IsFlight(fl);
    PoseShowsValue(fl.value, f);
    SnapKeepsOrientation(fl.final, fl.target, Normal(f));
  }

  /** The user's actions and the end of an animation, in the order they happen. */
  datatype Event =
    | Click(die: nat, v: int, dirX: int, dirY: int, kX: int, kY: int)
    | AnimationEnd
    | Restart

  predicate IsEvent(e: Event)
  {
    e.Click? ==> e.die < Slots && IsDraw(e.v, e.dirX, e.dirY, e.kX, e.kY)
  }

  predicate AreEvents(evs: seq<Event>)
  {
    forall k :: 0 <= k < |evs| ==> IsEvent(evs[k])
  }

  /** One event. An animation end with no animation running cannot occur and is taken as no change. */
  function Step(s: State, e: Event): (t: State)
    requires Coherent(s) && IsEvent(e)
    ensures Coherent(t)
  {
    match e
    case Click(i, v, dirX, dirY, kX, kY) => Roll(s, i, v, dirX, dirY, kX, kY)
    case AnimationEnd => if s.pending == [] then s else Finish(s)
    case Restart => Reset(s)
  }

  function Run(s: State, evs: seq<Event>): (t: State)
    requires Coherent(s) && AreEvents(evs)
    ensures Coherent(t)
    decreases |evs|
  {
    if evs == [] then s else Run(Step(s, evs[0]), evs[1..])
  }

  /** Every restart in the run happens while no animation is running. */
  predicate RestartsWhenIdle(s: State, evs: seq<Event>)
    requires Coherent(s) && AreEvents(evs)
    decreases |evs|
  {
    evs == [] || ((evs[0].Restart? ==> s.pending == []) && RestartsWhenIdle(Step(s, evs[0]), evs[1..]))
  }

  /** At most one roll is in flight at a time, as long as no restart interrupts a roll. */
  lemma {:induction false} RunKeepsSerial(s: State, evs: seq<Event>)
    requires Coherent(s) && Serial(s) && AreEvents(evs) && RestartsWhenIdle(s, evs)
    ensures Serial(Run(s, evs))
    decreases |evs|
  {
    if evs != [] {
      var e := evs[0];
      if e.Click? {
        RollKeepsSerial(s, e.die, e.v, e.dirX, e.dirY, e.kX, e.kY);
      } else if e.AnimationEnd? && s.pending != [] {
        FinishKeepsSerial(s);
      }
      RunKeepsSerial(Step(s, e), evs[1..]);
    }
  }

  /** A resolved die never re-rolls or changes value until the game is restarted. */
  lemma {:induction false} RunKeepsResolved(s: State, evs: seq<Event>, i: nat)
    requires Coherent(s) && AreEvents(evs) && i < Slots && s.results[i].Some?
    requires forall k :: 0 <= k < |evs| ==> !evs[k].Restart?
    ensures Run(s, evs).results[i] == s.results[i]
    decreases |evs|
  {
    if evs != [] {
      var t := Step(s, evs[0]);
      assert t.results[i] == s.results[i];
      RunKeepsResolved(t, evs[1..], i);
    }
  }

  /**
   * A restart during a roll does not stop its animation. When that animation
   * ends it clears the busy flag under the roll started after the restart,
   * and a click on a third die then starts a second animation beside it.
   */
  lemma RestartDuringRollLetsTwoRollsOverlap(s: State, i: nat, j: nat, l: nat,
                                             v: int, w: int, u: int, dirX: int, dirY: int, kX: int, kY: int)
    requires Coherent(s) && Serial(s) && !s.isRolling
    requires i < Slots && j < Slots && l < Slots && j != l && s.results[i].None?
    requires IsDraw(v, dirX, dirY, kX, kY) && IsDraw(w, dirX, dirY, kX, kY) && IsDraw(u, dirX, dirY, kX, kY)
    ensures var s1 := Step(s, Click(i, v, dirX, dirY, kX, kY));
      var s2 := Step(s1, Restart);
      var s3 := Step(s2, Click(j, w, dirX, dirY, kX, kY));
      var s4 := Step(s3, AnimationEnd);
      var t := Step(s4, Click(l, u, dirX, dirY, kX, kY));
      |t.pending| == 2 && t.isRolling && !Serial(t)
  {
  }

  lemma {:induction false} RunConcat(s: State, a: seq<Event>, b: seq<Event>)
    requires Coherent(s) && AreEvents(a) && AreEvents(b)
    ensures AreEvents(a + b) && Run(s, a + b) == Run(Run(s, a), b)
    decreases |a|
  {
    if a != [] {
      assert (a + b)[0] == a[0] && (a + b)[1..] == a[1..] + b;
      RunConcat(Step(s, a[0]), a[1..], b);
      assert Run(s, a + b) == Run(Step(s, a[0]), a[1..] + b);
    } else {
      assert a + b == b;
    }
  }

  /** The spin draws of one roll: a direction and a count of extra turns per axis. */
  datatype Spins = Spins(dirX: int, dirY: int, kX: int, kY: int)

  /** Each value is a pip and each roll has its own spin draws. */
  predicate AreRolls(vs: seq<int>, ds: seq<Spins>)
  {
    |ds| == |vs| && forall j :: 0 <= j < |vs| ==> IsDraw(vs[j], ds[j].dirX, ds[j].dirY, ds[j].kX, ds[j].kY)
  }

  /** Clicking dice 0, 1, 2, ... in turn, each time waiting for the animation to end. */
  function InTurn(vs: seq<int>, ds: seq<Spins>): (evs: seq<Event>)
    requires |vs| <= Slots && AreRolls(vs, ds)
    ensures AreEvents(evs)
  {
    if vs == [] then []
    else
      var n := |vs| - 1;
      InTurn(vs[..n], ds[..n]) + [Click(n, vs[n], ds[n].dirX, ds[n].dirY, ds[n].kX, ds[n].kY), AnimationEnd]
  }

  /** The first |vs| slots hold vs, the others are empty. */
  function Prefilled(vs: seq<int>): (r: seq<Option<int>>)
    requires |vs| <= Slots
    ensures |r| == Slots
  {
    seq(Slots, j requires 0 <= j < Slots => if j < |vs| then Some(vs[j]) else None)
  }

  /** From an idle session, a click on an empty die followed by the end of its animation fills that slot. */
  lemma ClickThenLand(s: State, i: nat, v: int, dirX: int, dirY: int, kX: int, kY: int)
    requires Coherent(s) && s.pending == [] && !s.isRolling
    requires i < Slots && s.results[i].None? && IsDraw(v, dirX, dirY, kX, kY)
    ensures Run(s, [Click(i, v, dirX, dirY, kX, kY), AnimationEnd]) == State(s.results[i := Some(v)], false, [])
  {
    var evs := [Click(i, v, dirX, dirY, kX, kY), AnimationEnd];
    assert evs[1..] == [AnimationEnd] && evs[1..][1..] == [];
    var s1 := Step(s, evs[0]);
    assert Run(s, evs) == Run(s1, [AnimationEnd]) == Run(Step(s1, AnimationEnd), []);
  }

  /**
   * Rolling the dice in turn fills their slots in order, and every roll has
   * ended: the session is idle again.
   */
  lemma {:induction false} InTurnFillsSlots(vs: seq<int>, ds: seq<Spins>)
    requires |vs| <= Slots && AreRolls(vs, ds)
    ensures Run(Initial, InTurn(vs, ds)) == State(Prefilled(vs), false, [])
  {
    if vs == [] {
      assert Prefilled(vs) == NoResults;
    } else {
      var n := |vs| - 1;
      var d := ds[n];
      InTurnLast(vs, ds);
      var prefix := InTurn(vs[..n], ds[..n]);
      var last := [Click(n, vs[n], d.dirX, d.dirY, d.kX, d.kY), AnimationEnd];
      var mid := State(Prefilled(vs[..n]), false, []);
      PrefilledIsIdle(vs[..n], ds[..n]);
      PrefilledExtend(vs);
      InTurnFillsSlots(vs[..n], ds[..n]);
      RunConcat(Initial, prefix, last);
      ClickThenLand(mid, n, vs[n], d.dirX, d.dirY, d.kX, d.kY);
    }
  }

  /** The last roll of a run in turn, split off. */
  lemma InTurnLast(vs: seq<int>, ds: seq<Spins>)
    requires 1 <= |vs| <= Slots && AreRolls(vs, ds)
    ensures AreRolls(vs[..|vs| - 1], ds[..|vs| - 1])
    ensures var n, d := |vs| - 1, ds[|vs| - 1];
      InTurn(vs, ds) == InTurn(vs[..n], ds[..n]) + [Click(n, vs[n], d.dirX, d.dirY, d.kX, d.kY), AnimationEnd]
  {
  }

  lemma PrefilledIsIdle(vs: seq<int>, ds: seq<Spins>)
    requires |vs| <= Slots && AreRolls(vs, ds)
    ensures Coherent(State(Prefilled(vs), false, []))
  {
    var r := Prefilled(vs);
    forall j | 0 <= j < Slots && r[j].Some?
      ensures IsPip(r[j].value)
    {
      assert r[j] == Some(vs[j]);
    }
  }

  lemma PrefilledExtend(vs: seq<int>)
    requires 1 <= |vs| <= Slots
    ensures Prefilled(vs[..|vs| - 1])[|vs| - 1].None?
    ensures Prefilled(vs[..|vs| - 1])[|vs| - 1 := Some(vs[|vs| - 1])] == Prefilled(vs)
  {
    var n := |vs| - 1;
    forall j | 0 <= j < Slots
      ensures Prefilled(vs[..n])[n := Some(vs[n])][j] == Prefilled(vs)[j]
    {
    }
  }

  /**
   * After five rolls the hint is empty, the result is revealed, and its
   * amount has the five rolled values as its decimal digits.
   */
  lemma FiveRollsRevealAmount(vs: seq<int>, ds: seq<Spins>)
    requires |vs| == Slots && AreRolls(vs, ds)
    ensures var t := Run(Initial, InTurn(vs, ds));
      && HintText(t.results) == ""
      && CheckAllRolled(t.results).Some?
      && CheckAllRolled(t.results).value.total == PlaceSum(vs)
      && Decode(CheckAllRolled(t.results).value.total) == vs
  {
    InTurnFillsSlots(vs, ds);
    var r := Prefilled(vs);
    assert forall j :: 0 <= j < Slots ==> r[j] == Some(vs[j]);
    assert AllRolled(r) && Values(r) == vs;
    DecodePlaceSum(vs);
  }
}
