/**
  The virtual pet: its state, its default, its survival predicate, its status
  text and its four actions (feed, walk, grow up, adopt a child).

  The counters are Rust `i8` values, modelled by the newtype `Int8`: every
  `+` and `-` on them must stay inside -128..127, which is exactly the
  condition under which the Rust code does not overflow. Each action is
  given twice: as a function on an immutable snapshot `PetValue` (the
  specification) and as a method of the class `Pet` that updates its fields in
  place and is proved to agree with that function.
 */
module VirtualPet {

  import opened Wrappers
  import Decimal

  newtype Int8 = x: int | -128 <= x < 128

  /** An immutable copy of a pet; adopted children are stored as these, nested. */
  datatype PetValue = PetValue(
    name: string,
    age: Int8,
    hunger: Int8,
    fitness: Int8,
    children: seq<PetValue>)
  {
    /** The pet is alive while every one of the three counters is below its threshold. */
    predicate IsAlive() {
      hunger < 10 && fitness >= 0 && age < 30
    }
  }

  function Max(a: int, b: int): int { if a < b then b else a }

  function Min(a: int, b: int): int { if a < b then a else b }

  /**
    The two clamps: hunger never below 0 and fitness never above 10. They hold
    of the default pet and every action keeps them.
   */
  predicate WithinClamps(p: PetValue) {
    p.hunger >= 0 && p.fitness <= 10
  }

  /** The state of a newly created (or reset) pet. */
  function Default(): (p: PetValue)
    ensures p.name == "" && p.children == []
    ensures p.age == 0 && p.hunger == 0 && p.fitness == 10
    ensures p.IsAlive() && WithinClamps(p)
  {
    PetValue("", 0, 0, 10, [])
  }

  /** Feeding lowers hunger by 3, but not below 0; `hunger - 3` itself must not overflow. */
  function Fed(p: PetValue): (q: PetValue)
    requires p.hunger >= -125
    ensures q.hunger as int == Max(p.hunger as int - 3, 0)
    ensures q.hunger >= 0
    ensures q == p.(hunger := q.hunger)
    ensures p.hunger == 0 ==> q == p
    ensures p.IsAlive() ==> q.IsAlive()
  {
    if p.hunger - 3 < 0 then p.(hunger := 0) else p.(hunger := p.hunger - 3)
  }

  /** Walking raises fitness by 3, but not above 10; `fitness + 3` itself must not overflow. */
  function Walked(p: PetValue): (q: PetValue)
    requires p.fitness <= 124
    ensures q.fitness as int == Min(p.fitness as int + 3, 10)
    ensures q.fitness <= 10
    ensures q == p.(fitness := q.fitness)
    ensures p.fitness == 10 ==> q == p
    ensures p.IsAlive() ==> q.IsAlive()
  {
    if p.fitness + 3 > 10 then p.(fitness := 10) else p.(fitness := p.fitness + 3)
  }

  /** The i8 arithmetic of growing up stays in range. */
  predicate CanGrowUp(p: PetValue) {
    p.age <= 126 && p.hunger <= 124 && p.fitness >= -125
  }

  /**
    Growing up adds one year, adds 3 hunger and takes 3 fitness, with no clamp
    on any of them; it keeps both clamps and never makes a dead pet alive.
   */
  function GrownUp(p: PetValue): (q: PetValue)
    requires CanGrowUp(p)
    ensures q.age > p.age && q.hunger > p.hunger && q.fitness < p.fitness
    ensures q.age as int - p.age as int == 1
    ensures q.hunger as int - p.hunger as int == 3
    ensures p.fitness as int - q.fitness as int == 3
    ensures q.name == p.name && q.children == p.children
    ensures WithinClamps(p) ==> WithinClamps(q)
    ensures q.IsAlive() ==> p.IsAlive()
  {
    p.(age := p.age + 1, hunger := p.hunger + 3, fitness := p.fitness - 3)
  }

  /** Adopting appends the child after the existing children and changes nothing else. */
  function Adopted(p: PetValue, child: PetValue): (q: PetValue)
    ensures |q.children| == |p.children| + 1
    ensures q.children[..|p.children|] == p.children
    ensures q.children[|p.children|] == child
    ensures q == p.(children := q.children)
  {
    p.(children := p.children + [child])
  }

  /** The status line: "Age: {} Hunger: {} Fitness: {}" over the three counters. */
  function StatusText(p: PetValue): (s: string)
    ensures ParseStatus(s) == Some((p.age as int, p.hunger as int, p.fitness as int))
  {
    var a := Decimal.IntToString(p.age as int);
    var h := Decimal.IntToString(p.hunger as int);
    var f := Decimal.IntToString(p.fitness as int);
    var s := "Age: " + a + " Hunger: " + h + " Fitness: " + f;
    StatusTextParses(a, h, f, p.age as int, p.hunger as int, p.fitness as int);
    s
  }

  /** Reads one labelled counter from the front of `s`: the tag, then a decimal integer. */
  function ParseField(tag: string, s: string): Option<(int, string)> {
    if tag <= s then Decimal.ParseInt(s[|tag|..]) else None
  }

  /** Reads the three counters back from a status line; None if it is not one. */
  function ParseStatus(s: string): Option<(int, int, int)> {
    match ParseField("Age: ", s)
    case None => None
    case Some((a, r1)) =>
      match ParseField(" Hunger: ", r1)
      case None => None
      case Some((h, r2)) =>
        match ParseField(" Fitness: ", r2)
        case None => None
        case Some((f, r3)) => if r3 == [] then Some((a, h, f)) else None
  }

  lemma FieldParses(tag: string, n: int, rest: string)
    requires rest == [] || !Decimal.IsDigit(rest[0])
    ensures ParseField(tag, tag + Decimal.IntToString(n) + rest) == Some((n, rest))
  {
    var s := tag + Decimal.IntToString(n) + rest;
    assert s[|tag|..] == Decimal.IntToString(n) + rest;
    Decimal.IntToStringParses(n, rest);
  }

  lemma StatusTextParses(a: string, h: string, f: string, age: int, hunger: int, fitness: int)
    requires a == Decimal.IntToString(age)
    requires h == Decimal.IntToString(hunger)
    requires f == Decimal.IntToString(fitness)
    ensures ParseStatus("Age: " + a + " Hunger: " + h + " Fitness: " + f) == Some((age, hunger, fitness))
  {
    var r2 := " Fitness: " + f;
    var r1 := " Hunger: " + h + r2;
    assert "Age: " + a + " Hunger: " + h + " Fitness: " + f == "Age: " + a + r1;
    FieldParses("Age: ", age, r1);
    FieldParses(" Hunger: ", hunger, r2);
    assert r2 == " Fitness: " + f + [];
    FieldParses(" Fitness: ", fitness, []);
  }

  /** A pet, whose actions update its fields in place. */
  class Pet {
    var name: string
    var age: Int8
    var hunger: Int8
    var fitness: Int8
    var children: seq<PetValue>

    /** The pet's current state as a value. */
    function Snapshot(): PetValue
      reads this
    {
      PetValue(name, age, hunger, fitness, children)
    }

    /** `Pet::default()`. */
    constructor ()
      ensures Snapshot() == Default()
    {
      name := "";
      age := 0;
      hunger := 0;
      fitness := 10;
      children := [];
    }

    /** `is_alive`: computed from the three counters, never stored; it agrees with the snapshot's predicate. */
    predicate IsAlive()
      reads this
      ensures IsAlive() == Snapshot().IsAlive()
    {
      hunger < 10 && fitness >= 0 && age < 30
    }

    /** The status line; it reads the state and changes nothing, and it determines the three counters. */
    function Status(): (s: string)
      reads this
      ensures ParseStatus(s) == Some((age as int, hunger as int, fitness as int))
    {
      StatusText(Snapshot())
    }

    /** Appends `child` to the children and returns the updated list. */
    method AdoptChild(child: PetValue) returns (kids: seq<PetValue>)
      modifies this
      ensures Snapshot() == Adopted(old(Snapshot()), child)
      ensures children == old(children) + [child] && kids == children
      ensures name == old(name) && age == old(age) && hunger == old(hunger) && fitness == old(fitness)
    {
      children := children + [child];
      kids := children;
    }

    method Feed()
      requires hunger >= -125
      modifies this
      ensures Snapshot() == Fed(old(Snapshot()))
      ensures hunger >= 0
      ensures name == old(name) && age == old(age) && fitness == old(fitness) && children == old(children)
    {
      if hunger - 3 < 0 {
        hunger := 0;
      } else {
        hunger := hunger - 3;
      }
    }

    method Walk()
      requires fitness <= 124
      modifies this
      ensures Snapshot() == Walked(old(Snapshot()))
      ensures fitness <= 10
      ensures name == old(name) && age == old(age) && hunger == old(hunger) && children == old(children)
    {
      if fitness + 3 > 10 {
        fitness := 10;
      } else {
        fitness := fitness + 3;
      }
    }

    method GrowUp()
      requires age <= 126 && hunger <= 124 && fitness >= -125
      modifies this
      ensures Snapshot() == GrownUp(old(Snapshot()))
      ensures age == old(age) + 1 && hunger == old(hunger) + 3 && fitness == old(fitness) - 3
      ensures name == old(name) && children == old(children)
    {
      age := age + 1;
      hunger := hunger + 3;
      fitness := fitness - 3;
    }
  }
}
