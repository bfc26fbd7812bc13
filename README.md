# Virtual pet — a verified Dafny model

This is a model of the pet state object in the `virtualpet-wasm` project (`src/lib.rs`). A pet has:

- a name;
- three signed 8-bit counters: `age`, `hunger` and `fitness`;
- a list of adopted children, which are full nested pets.

The pet's state machine has these parts:

- **default**: the empty name, age 0, hunger 0, fitness 10 and no children;
- **is_alive**: `hunger < 10 && fitness >= 0 && age < 30`;
- **feed**: hunger goes down by 3, but never below 0;
- **walk**: fitness goes up by 3, but never above 10;
- **grow_up**: age +1, hunger +3 and fitness −3, with no clamping;
- **adopt_child**: appends a child and returns the updated list;
- **status**: the text `Age: {} Hunger: {} Fitness: {}`.

From the graphical shell (`src/app.rs`), two things are modelled: the shell starting with a default pet, and the Reset button, which replaces the pet with a default one.

Files and modules:

- `pet.dfy`, module `VirtualPet`: the core. The counters have the type `Int8`, a newtype over -128..127. Every `+` or `-` on a counter is therefore a proof obligation that the Rust arithmetic does not overflow. Each action appears twice:
  - as a function on the immutable snapshot `PetValue` (`Fed`, `Walked`, `GrownUp`, `Adopted`, `Default`, `StatusText`);
  - as a method of the class `Pet`, which updates its fields in place and ensures `Snapshot() == F(old(Snapshot()))`.
- `lifecycle.dfy`, module `PetLifecycle`: sequences of actions, as the shell's buttons issue them (`Step`, `Run`). A step that would overflow gives `None`, which is where Rust panics in a debug build. This module holds the whole-program properties:
  - the two clamps, `hunger >= 0` and `fitness <= 10`, hold from the default state on;
  - age never decreases, so death by age is permanent;
  - death by hunger or fitness before age 30 is undone by feeding and walking;
  - the end-to-end scenario: four `grow_up` calls, then `feed` and `walk`.
- `decimal.dfy`, module `Decimal`: decimal text of integers, as Rust's `{}` prints them, and its parser. The parser is used to state that the status line determines the three counters.
- `app.dfy`, module `Shell`: the shell's pet and its Reset.
- `wrappers.dfy`, module `Wrappers`: `Option`.

Children are whole pets: `children` is a `Vec<Pet>` (`src/lib.rs:11`) and `adopt_child` takes a whole `Pet` (`src/lib.rs:33`). In the model a child is a `PetValue` snapshot, the value that Rust moves into the vector.

## Model

| member | source | states |
|---|---|---|
| `VirtualPet.Default` | src/lib.rs:14-24 | the default pet has the empty name, age 0, hunger 0, fitness 10 and no children; it is alive and within both clamps |
| `VirtualPet.Fed` | src/lib.rs:43-49 | new hunger is max(hunger − 3, 0), so it is never negative; only hunger changes; at hunger 0 nothing changes (idempotent at the floor); feeding never kills a live pet; requires that `hunger - 3` not overflow i8 |
| `VirtualPet.Walked` | src/lib.rs:50-56 | new fitness is min(fitness + 3, 10), so it never exceeds 10; only fitness changes; at fitness 10 nothing changes (idempotent at the ceiling); walking never kills a live pet; requires that `fitness + 3` not overflow i8 |
| `VirtualPet.GrownUp` | src/lib.rs:57-61 | age goes up by exactly 1, hunger up by exactly 3 and fitness down by exactly 3, with no clamp; name and children are unchanged; both clamps are kept; a dead pet stays dead; requires the i8 bounds age <= 126, hunger <= 124, fitness >= -125 |
| `VirtualPet.Adopted` | src/lib.rs:33-36 | the children become one longer: the old children, in their order, then the adopted child; nothing else changes |
| `VirtualPet.StatusText` | src/lib.rs:37-42 | the status line parses back to exactly (age, hunger, fitness), so the text determines the three counters |
| `VirtualPet.Pet.constructor` | src/lib.rs:14-24 | a new pet's state equals `Default()` |
| `VirtualPet.Pet.IsAlive` | src/lib.rs:29-31 | `is_alive` reads the three counters and is stored nowhere; it holds exactly when the object's snapshot is alive (hunger < 10, fitness >= 0, age < 30), the predicate the lifecycle lemmas reason about |
| `VirtualPet.Pet.Status` | src/lib.rs:37-42 | reads the object and changes nothing; the result parses back to the object's current age, hunger and fitness |
| `VirtualPet.Pet.AdoptChild` | src/lib.rs:33-36 | children becomes old children + [child]; the returned list is the updated children; name and counters are unchanged |
| `VirtualPet.Pet.Feed` | src/lib.rs:43-49 | the new state is `Fed` of the old one, so hunger >= 0 afterwards; name, age, fitness and children are unchanged |
| `VirtualPet.Pet.Walk` | src/lib.rs:50-56 | the new state is `Walked` of the old one, so fitness <= 10 afterwards; name, age, hunger and children are unchanged |
| `VirtualPet.Pet.GrowUp` | src/lib.rs:57-61 | the new state is `GrownUp` of the old one: age +1, hunger +3, fitness −3; name and children are unchanged; needs the i8 no-overflow bounds |
| `PetLifecycle.Step` | src/lib.rs:43-61 | one shell action on a pet has no result exactly when its i8 arithmetic would overflow: feed when hunger < -125, walk when fitness > 124, grow_up outside the grow_up bounds; otherwise it gives a pet that is no younger, with the same name and children |
| `PetLifecycle.ClampsRuleOutFeedAndWalkOverflow` | src/lib.rs:43-56 | within the clamps, the i8 arithmetic of feed (`hunger - 3`) and walk (`fitness + 3`) cannot overflow |
| `PetLifecycle.RunKeepsClamps` | src/lib.rs:43-61 | every sequence of feed, walk and grow_up that does not overflow keeps hunger >= 0 and fitness <= 10 |
| `PetLifecycle.ReachableStatesWithinClamps` | src/lib.rs:14-61 | every state reachable from the default pet has hunger >= 0 and fitness <= 10 |
| `PetLifecycle.RunNeverDecreasesAge` | src/lib.rs:43-61 | no sequence of actions lowers age |
| `PetLifecycle.AgeDeathIsPermanent` | src/lib.rs:29-61 | once age >= 30, no sequence of actions makes `is_alive` true again |
| `PetLifecycle.RepeatedFeeding` | src/lib.rs:43-49 | feeding n times from non-negative hunger never overflows and gives hunger max(hunger − 3n, 0), with nothing else changed |
| `PetLifecycle.RepeatedWalking` | src/lib.rs:50-56 | walking n times from fitness <= 10 never overflows and gives fitness min(fitness + 3n, 10), with nothing else changed |
| `PetLifecycle.DeathBeforeThirtyIsRecoverable` | src/lib.rs:29-56 | a pet within the clamps and younger than 30 is alive again after hunger/3 feeds followed by (10 − fitness)/3 walks: hunger- and fitness-death are not terminal |
| `PetLifecycle.DeathAndRecoveryScenario` | src/lib.rs:14-61 | from the default pet, four grow_ups give age 4, hunger 12, fitness −2 and a dead pet; one feed gives hunger 9, then one walk gives fitness 1 and a live pet |
| `Decimal.IntToStringParses` | src/lib.rs:38-41 | the decimal text of any integer, followed by text that does not start with a digit, reads back as that integer |
| `Shell.PetApp.constructor` | src/app.rs:8-13 | the shell's pet starts as a default pet |
| `Shell.PetApp.Reset` | src/app.rs:102-104 | after Reset, the pet's whole state equals the default state: it is alive and has no children |

## Left out

- The rest of the graphical shell (panels, buttons, menu bar, theme toggle, the per-frame `update` loop) has no logic to model. So does the binding of the name to a text box (`src/app.rs:73`), which lets the user overwrite the name with any text.
- Persistence through `eframe::get_value`/`set_value` (`src/app.rs:17-35`) is a foreign library call. The pet field is also excluded from serialization (`src/app.rs:11`), so no snapshot of the pet is ever saved or restored.
- Rust's overflow behaviour is not modelled: a debug build panics and a release build wraps around. Each action instead requires the bound under which its i8 arithmetic stays in range (`Fed`, `Walked`, `GrownUp`, the `Pet` methods), and `Step` gives `None` outside it. The bounds for feed and walk are implied by the clamps that hold from the default pet on (`ClampsRuleOutFeedAndWalkOverflow`). The bounds for grow_up are not: 43 grow_ups from the default overflow hunger.
- `adopt_child` moves a `Pet` into the vector. The model passes the child as an immutable `PetValue`, so moving ownership and the child object's later identity are not represented.
