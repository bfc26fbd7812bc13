/**
  The part of the graphical shell that touches the pet's state: it owns one
  pet, and its Reset button replaces that pet with a default one.
 */
module Shell {

  import opened VirtualPet

  class PetApp {
    var pet: Pet

    /** The shell starts with a default pet. */
    constructor ()
      ensures fresh(pet) && pet.Snapshot() == Default()
    {
      pet := new Pet();
    }

    /** Replaces the pet wholesale by a default one: name, counters and children are all discarded. */
    method Reset()
      modifies this
      ensures fresh(pet) && pet.Snapshot() == Default()
      ensures pet.IsAlive() && pet.children == []
    {
      pet := new Pet();
    }
  }
}
