/**
 * The simulation's entity objects. InteractiveEntity and Agent extend
 * Entity by inheritance in the program; here each class repeats the base
 * fields (entity_id, name, x, y) beside its own.
 */
module Entities {

  const Up: string := "up"
  const Down: string := "down"
  const Left: string := "left"
  const Right: string := "right"

  /** A thing on the map at integer coordinates. */
  class Entity {
    var entityId: int
    var name: string
    var x: int
    var y: int

    constructor (entityId: int, name: string, x: int, y: int)
      ensures this.entityId == entityId && this.name == name && this.x == x && this.y == y
    {
      this.entityId := entityId;
      this.name := name;
      this.x := x;
      this.y := y;
    }
  }

  /** An entity that can be researched and wears out. */
  class InteractiveEntity {
    var entityId: int
    var name: string
    var x: int
    var y: int
    var durability: int

    constructor (entityId: int, name: string, x: int, y: int, durability: int)
      ensures this.durability == durability
      ensures this.entityId == entityId && this.name == name && this.x == x && this.y == y
    {
      this.durability := durability;
      this.entityId := entityId;
      this.name := name;
      this.x := x;
      this.y := y;
    }
  }

  /** A living, moving entity carrying a bag of items. */
  class Agent<Item> {
    var entityId: int
    var name: string
    var x: int
    var y: int
    var gender: string
    var health: int
    var years: int
    var bag: seq<Item>

    constructor (entityId: int, name: string, x: int, y: int, gender: string, health: int, years: int, bag: seq<Item>)
      ensures this.entityId == entityId && this.name == name && this.x == x && this.y == y
      ensures this.gender == gender && this.health == health && this.years == years && this.bag == bag
    {
      this.entityId := entityId;
      this.name := name;
      this.x := x;
      this.y := y;
      this.gender := gender;
      this.health := health;
      this.years := years;
      this.bag := bag;
    }

    /**
     * One step in a compass direction: "up" and "down" change y, "left" and
     * "right" change x. Any other string leaves the agent where it is. The
     * actor is not consulted, and only x and y may change.
     */
    method Move(actor: object?, direction: string)
      modifies this`x, this`y
      ensures direction == Up ==> x == old(x) && y == old(y) + 1
      ensures direction == Down ==> x == old(x) && y == old(y) - 1
      ensures direction == Left ==> x == old(x) - 1 && y == old(y)
      ensures direction == Right ==> x == old(x) + 1 && y == old(y)
      ensures direction != Up && direction != Down && direction != Left && direction != Right
              ==> x == old(x) && y == old(y)
    {
      if direction == Up {
        y := y + 1;
      } else if direction == Down {
        y := y - 1;
      } else if direction == Left {
        x := x - 1;
      } else if direction == Right {
        x := x + 1;
      }
    }
  }

  /** The direction that undoes a step, for the four directions Move knows. */
  function Opposite(direction: string): (r: string)
    requires direction in {Up, Down, Left, Right}
    ensures r in {Up, Down, Left, Right} && r != direction
  {
    if direction == Up then Down
    else if direction == Down then Up
    else if direction == Left then Right
    else Left
  }

  /** A step followed by the opposite step puts the agent back where it started. */
  method ReturnTrip<Item>(agent: Agent<Item>, actor: object?, direction: string)
    requires direction in {Up, Down, Left, Right}
    modifies agent`x, agent`y
    ensures agent.x == old(agent.x) && agent.y == old(agent.y)
  {
    agent.Move(actor, direction);
    agent.Move(actor, Opposite(direction));
  }
}
