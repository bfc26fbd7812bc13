/**
  Sequences of actions on a pet, as the shell's buttons issue them, and what
  holds of every state they reach: the two clamps, age that never goes down,
  age-death that is permanent, and hunger- or fitness-death that feeding and
  walking undo.
 */
module PetLifecycle {

  import opened Wrappers
  import opened VirtualPet

  datatype Action = Feed | Walk | GrowUp

  /**
    One action on a pet value; None when the action's i8 arithmetic would
    overflow (where the Rust code panics in a debug build).
   */
  function Step(p: PetValue, a: Action): (r: Option<PetValue>)
    ensures r.None? <==>
      || (a == Feed && p.hunger < -125)
      || (a == Walk && p.fitness > 124)
      || (a == GrowUp && !CanGrowUp(p))
    ensures r.Some? ==> r.value.age >= p.age
    ensures r.Some? ==> r.value.name == p.name && r.value.children == p.children
  {
    match a
    case Feed => if p.hunger >= -125 then Some(Fed(p)) else None
    case Walk => if p.fitness <= 124 then Some(Walked(p)) else None
    case GrowUp => if CanGrowUp(p) then Some(GrownUp(p)) else None
  }

  /** The actions in order, from the first; None as soon as one of them overflows. */
  function Run(p: PetValue, acts: seq<Action>): Option<PetValue>
    decreases |acts|
  {
    if acts == [] then Some(p)
    else match Step(p, acts[0])
      case None => None
      case Some(q) => Run(q, acts[1..])
  }

  /** Pressing the same button `n` times. */
  function Repeat(a: Action, n: nat): (acts: seq<Action>)
    ensures |acts| == n && forall i :: 0 <= i < n ==> acts[i] == a
  {
    seq(n, _ => a)
  }

  /** Once the clamps hold, feeding and walking can never overflow. */
  lemma ClampsRuleOutFeedAndWalkOverflow(p: PetValue)
    requires WithinClamps(p)
    ensures Step(p, Feed) == Some(Fed(p))
    ensures Step(p, Walk) == Some(Walked(p))
  {
  }

  /** Every action keeps the clamps. */
  lemma {:induction false} RunKeepsClamps(p: PetValue, acts: seq<Action>)
    requires WithinClamps(p)
    ensures Run(p, acts).Some? ==> WithinClamps(Run(p, acts).value)
    decreases |acts|
  {
    if acts != [] {
      match Step(p, acts[0])
      case None =>
      case Some(q) =>
        assert WithinClamps(q);
        RunKeepsClamps(q, acts[1..]);
    }
  }

  /** Every state reachable from the default pet has hunger >= 0 and fitness <= 10. */
  lemma ReachableStatesWithinClamps(acts: seq<Action>)
    ensures Run(Default(), acts).Some? ==> Run(Default(), acts).value.hunger >= 0
    ensures Run(Default(), acts).Some? ==> Run(Default(), acts).value.fitness <= 10
  {
    RunKeepsClamps(Default(), acts);
  }

  lemma {:induction false} RunNeverDecreasesAge(p: PetValue, acts: seq<Action>)
    ensures Run(p, acts).Some? ==> Run(p, acts).value.age >= p.age
    decreases |acts|
  {
    if acts != [] {
      match Step(p, acts[0])
      case None =>
      case Some(q) => RunNeverDecreasesAge(q, acts[1..]);
    }
  }

  /** A pet that has reached age 30 stays dead whatever is done with it afterwards. */
  lemma AgeDeathIsPermanent(p: PetValue, acts: seq<Action>)
    requires p.age >= 30
    ensures Run(p, acts).Some? ==> !Run(p, acts).value.IsAlive()
  {
    RunNeverDecreasesAge(p, acts);
  }

  lemma {:induction false} RunAppend(p: PetValue, xs: seq<Action>, ys: seq<Action>)
    ensures Run(p, xs + ys) == match Run(p, xs) case None => None case Some(q) => Run(q, ys)
    decreases |xs|
  {
    if xs != [] {
      assert (xs + ys)[0] == xs[0];
      assert (xs + ys)[1..] == xs[1..] + ys;
      match Step(p, xs[0])
      case None =>
      case Some(q) => RunAppend(q, xs[1..], ys);
    } else {
      assert xs + ys == ys;
    }
  }

  /** Feeding `n` times lowers hunger by 3 each time, down to 0, and changes nothing else. */
  lemma {:induction false} RepeatedFeeding(p: PetValue, n: nat)
    requires p.hunger >= 0
    ensures Run(p, Repeat(Feed, n)).Some?
    ensures Run(p, Repeat(Feed, n)).value.hunger as int == Max(p.hunger as int - 3 * n, 0)
    ensures Run(p, Repeat(Feed, n)).value == p.(hunger := Run(p, Repeat(Feed, n)).value.hunger)
  {
    if n > 0 {
      assert Repeat(Feed, n) == Repeat(Feed, n - 1) + [Feed];
      RunAppend(p, Repeat(Feed, n - 1), [Feed]);
      RepeatedFeeding(p, n - 1);
    }
  }

  /** Walking `n` times raises fitness by 3 each time, up to 10, and changes nothing else. */
  lemma {:induction false} RepeatedWalking(p: PetValue, n: nat)
    requires p.fitness <= 10
    ensures Run(p, Repeat(Walk, n)).Some?
    ensures Run(p, Repeat(Walk, n)).value.fitness as int == Min(p.fitness as int + 3 * n, 10)
    ensures Run(p, Repeat(Walk, n)).value == p.(fitness := Run(p, Repeat(Walk, n)).value.fitness)
  {
    if n > 0 {
      assert Repeat(Walk, n) == Repeat(Walk, n - 1) + [Walk];
      RunAppend(p, Repeat(Walk, n - 1), [Walk]);
      RepeatedWalking(p, n - 1);
    }
  }

  /**
    A pet within the clamps and younger than 30 becomes alive again, whatever
    its hunger and fitness, after enough feeding followed by enough walking.
   */
  lemma DeathBeforeThirtyIsRecoverable(p: PetValue)
    requires WithinClamps(p) && p.age < 30
    ensures var acts := Repeat(Feed, p.hunger as nat / 3) + Repeat(Walk, (10 - p.fitness as int) / 3);
      Run(p, acts).Some? && Run(p, acts).value.IsAlive()
  {
    var nf := p.hunger as nat / 3;
    var nw := (10 - p.fitness as int) / 3;
    RunAppend(p, Repeat(Feed, nf), Repeat(Walk, nw));
    RepeatedFeeding(p, nf);
    var q := Run(p, Repeat(Feed, nf)).value;
    RepeatedWalking(q, nw);
  }

  /**
    From the default pet, four years of growing up kill it by hunger and
    fitness; one feed and one walk bring it back.
   */
  lemma DeathAndRecoveryScenario()
    ensures var dead := Run(Default(), Repeat(GrowUp, 4));
      && dead.Some?
      && dead.value.age == 4 && dead.value.hunger == 12 && dead.value.fitness == -2
      && !dead.value.IsAlive()
      && Run(dead.value, [Feed]).Some? && Run(dead.value, [Feed]).value.hunger == 9
      && Run(dead.value, [Feed, Walk]).Some?
      && Run(dead.value, [Feed, Walk]).value.fitness == 1
      && Run(dead.value, [Feed, Walk]).value.IsAlive()
  {
    var acts := Repeat(GrowUp, 4);
    assert acts == [GrowUp, GrowUp, GrowUp, GrowUp];
    var p0 := Default();
    var p1 := GrownUp(p0);
    var p2 := GrownUp(p1);
    var p3 := GrownUp(p2);
    var p4 := GrownUp(p3);
    assert Run(p3, acts[3..]) == Some(p4);
    assert Run(p2, acts[2..]) == Some(p4);
    assert Run(p1, acts[1..]) == Some(p4);
    assert Run(p0, acts) == Some(p4);
  }
}
