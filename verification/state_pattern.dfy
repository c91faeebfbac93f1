/** The State pattern demo: an NPC with three independent state machines (movement,
    attack, dialog). Each behaviour object holds its current state in a field and
    delegates to it; a state may switch the behaviour to another state and re-dispatch. */
module StatePattern {
  import opened Wrappers

  /** The NPC's position; only integer constants are ever written to it. */
  datatype Vector3 = Vector3(x: int, y: int, z: int)

  const Origin := Vector3(0, 0, 0)
  const WalkTarget := Vector3(10, 0, 2)
  const RunTarget := Vector3(50, 0, 17)

  datatype Player = Player(name: string)
  datatype Weapon = Weapon

  // ---------------------------------------------------------------- Movement

  datatype MovementState = Idle | Walk | Run

  /** Endurance left by `while (Endurance-- > 0)`: the test reads the old value and
      decrements once more on the failing test. */
  function Exhausted(e: int): (r: int)
    ensures r < e && r <= -1
    ensures e >= 0 ==> r == -1
  {
    if e > 0 then -1 else e - 1
  }

  /** How many more state changes Move can make from a state: Idle with endurance goes to
      Walk (3), Walk to Run or Idle (2), Run to Idle (1), Idle without endurance stops (0). */
  function Rank(s: MovementState, endurance: int): (r: nat)
    ensures r <= 3
    ensures r == 0 <==> s == Idle && endurance <= 0
  {
    match s
    case Idle => if endurance > 0 then 3 else 0
    case Walk => 2
    case Run => 1
  }

  /** What Move leaves behind: the movement state, the endurance and the NPC's position,
      with the states it switched to, in order. */
  datatype Motion = Motion(state: MovementState, endurance: int, position: Vector3,
                           route: seq<MovementState>)

  /** The effect of Move from state `s` with endurance `e` and position `p`: it always
      settles in Idle with endurance 10, after at most Rank(s, e) state changes. */
  function Moved(s: MovementState, e: int, p: Vector3): (r: Motion)
    ensures r.state == Idle && r.endurance == 10
    ensures r.position in {p, WalkTarget, RunTarget}
    ensures |r.route| <= Rank(s, e)
    ensures r.route != [] ==> r.route[|r.route| - 1] == Idle
    decreases Rank(s, e)
  {
    match s
    case Idle =>
      if e > 0 then Entered(Walk, Moved(Walk, e, p)) else Motion(Idle, 10, p, [])
    case Walk =>
      if e > 5 then Entered(Run, Moved(Run, e, p))
      else Entered(Idle, Moved(Idle, Exhausted(e), WalkTarget))
    case Run => Entered(Idle, Moved(Idle, Exhausted(e), RunTarget))
  }

  /** `m`, preceded by a switch to state `s`. */
  function Entered(s: MovementState, m: Motion): Motion
  {
    m.(route := [s] + m.route)
  }

  /** Move from Idle: no endurance leaves the NPC in place, 1..5 walks it, more runs it;
      the states visited are at most Idle -> Walk -> Run -> Idle. */
  lemma MoveFromIdle(e: int, p: Vector3)
    ensures Moved(Idle, e, p).position ==
      if e <= 0 then p else if e <= 5 then WalkTarget else RunTarget
    ensures Moved(Idle, e, p).route ==
      if e <= 0 then [] else if e <= 5 then [Walk, Idle] else [Walk, Run, Idle]
  {
    if e > 5 {
      assert Moved(Run, e, p) == Motion(Idle, 10, RunTarget, [Idle]);
    } else if e > 0 {
      assert Moved(Walk, e, p) == Motion(Idle, 10, WalkTarget, [Idle]);
    }
  }

  /** Whatever the state and endurance, a Move that follows a Move starts from Idle with
      endurance 10, so it runs. */
  lemma MoveTwice(s: MovementState, e: int, p: Vector3)
    ensures Moved(Idle, Moved(s, e, p).endurance, Moved(s, e, p).position).position == RunTarget
  {
    var m := Moved(s, e, p);
    assert m.endurance == 10;
    MoveFromIdle(10, m.position);
  }

  class MovementBehavior {
    const npc: Npc
    var CurrentState: MovementState
    var Endurance: int

    constructor (npc: Npc)
      ensures this.npc == npc
      ensures CurrentState == Idle && Endurance == 5
    {
      this.npc := npc;
      Endurance := 5;
      CurrentState := Idle;
    }

    method ChangePosition(position: Vector3)
      modifies npc`Position
      ensures npc.Position == position
    {
      npc.Position := position;
    }

    /** Dispatches to the current state; `path` lists the states switched to, in order. */
    method Move() returns (ghost path: seq<MovementState>)
      modifies this, npc`Position
      ensures Motion(CurrentState, Endurance, npc.Position, path) ==
        Moved(old(CurrentState), old(Endurance), old(npc.Position))
      decreases Rank(CurrentState, Endurance), 1
    {
      match CurrentState
      case Idle => path := IdleMove();
      case Walk => path := WalkMove();
      case Run => path := RunMove();
    }

    method IdleMove() returns (ghost path: seq<MovementState>)
      requires CurrentState == Idle
      modifies this, npc`Position
      ensures Motion(CurrentState, Endurance, npc.Position, path) ==
        Moved(Idle, old(Endurance), old(npc.Position))
      decreases Rank(CurrentState, Endurance), 0
    {
      if Endurance > 0 {
        CurrentState := Walk;
        path := Move();
        path := [Walk] + path;
        return;
      }
      Endurance := 10;
      path := [];
    }

    method WalkMove() returns (ghost path: seq<MovementState>)
      requires CurrentState == Walk
      modifies this, npc`Position
      ensures Motion(CurrentState, Endurance, npc.Position, path) ==
        Moved(Walk, old(Endurance), old(npc.Position))
      decreases Rank(CurrentState, Endurance), 0
    {
      path := [];
      if Endurance > 5 {
        CurrentState := Run;
        path := Move();
        path := [Run] + path;
        return;
      }
      Exhaust();
      ChangePosition(WalkTarget);
      if Endurance <= 0 {
        CurrentState := Idle;
        path := Move();
        path := [Idle] + path;
      }
    }

    method RunMove() returns (ghost path: seq<MovementState>)
      requires CurrentState == Run
      modifies this, npc`Position
      ensures Motion(CurrentState, Endurance, npc.Position, path) ==
        Moved(Run, old(Endurance), old(npc.Position))
      decreases Rank(CurrentState, Endurance), 0
    {
      path := [];
      Exhaust();
      ChangePosition(RunTarget);
      if Endurance <= 0 {
        CurrentState := Idle;
        path := Move();
        path := [Idle] + path;
      }
    }

    /** The loop `while (Endurance-- > 0)`: it counts Endurance down one step at a time. */
    method Exhaust()
      modifies this`Endurance
      ensures Endurance == Exhausted(old(Endurance))
    {
      var going := Endurance > 0;
      Endurance := Endurance - 1;
      while going
        invariant going ==> 0 <= Endurance < old(Endurance)
        invariant !going ==> Endurance == Exhausted(old(Endurance))
        decreases if going then Endurance + 1 else 0
      {
        going := Endurance > 0;
        Endurance := Endurance - 1;
      }
    }
  }

  // ---------------------------------------------------------------- Attacking

  datatype AttackState = NoAtack | MeeleeAttack

  /** The attack state that matches the weapon slot. */
  function Stance(weapon: Option<Weapon>): AttackState
  {
    if weapon.Some? then MeeleeAttack else NoAtack
  }

  class AttackBehavior {
    var Weapon: Option<Weapon>
    var CurrentState: AttackState

    constructor ()
      ensures Weapon == None && CurrentState == NoAtack
    {
      Weapon := None;
      CurrentState := NoAtack;
    }

    method SetWeapon(weapon: Option<Weapon>)
      modifies this`Weapon
      ensures Weapon == weapon
    {
      Weapon := weapon;
    }

    /** `changes` counts the state switches made by this call. */
    method Attack(player: Player) returns (ghost changes: nat)
      modifies this`CurrentState
      ensures CurrentState == Stance(Weapon)
      ensures changes <= 1
      ensures changes == 0 <==> CurrentState == old(CurrentState)
      decreases if CurrentState == Stance(Weapon) then 0 else 1, 1
    {
      match CurrentState
      case NoAtack => changes := NoAtackAttack(player);
      case MeeleeAttack => changes := MeeleeAttackAttack(player);
    }

    method NoAtackAttack(player: Player) returns (ghost changes: nat)
      requires CurrentState == NoAtack
      modifies this`CurrentState
      ensures CurrentState == Stance(Weapon)
      ensures changes == if Weapon.Some? then 1 else 0
      decreases if CurrentState == Stance(Weapon) then 0 else 1, 0
    {
      changes := 0;
      if Weapon.Some? {
        CurrentState := MeeleeAttack;
        changes := Attack(player);
        changes := changes + 1;
        return;
      }
    }

    method MeeleeAttackAttack(player: Player) returns (ghost changes: nat)
      requires CurrentState == MeeleeAttack
      modifies this`CurrentState
      ensures CurrentState == Stance(Weapon)
      ensures changes == if Weapon.None? then 1 else 0
      decreases if CurrentState == Stance(Weapon) then 0 else 1, 0
    {
      changes := 0;
      if Weapon.None? {
        CurrentState := NoAtack;
        changes := Attack(player);
        changes := changes + 1;
        return;
      }
    }
  }

  // ---------------------------------------------------------------- Dialog

  /** Neutral owns the per-player greeting counters; Happy holds nothing. */
  datatype ConversationState = Neutral(playersConversations: map<string, int>) | Happy

  /** Counters after greeting `name`: its own counter goes up by one (from 0 when absent),
      every other player's counter is left as it was. */
  function Greeted(m: map<string, int>, name: string): (r: map<string, int>)
    ensures r.Keys == m.Keys + {name}
    ensures r[name] == if name in m then m[name] + 1 else 1
    ensures forall n :: n in m && n != name ==> r[n] == m[n]
  {
    if name in m then m[name := m[name] + 1] else m[name := 1]
  }

  /** The state after greeting `name` in state `s`. */
  function AfterGreet(s: ConversationState, name: string): (r: ConversationState)
    ensures s.Happy? ==> r == Happy
  {
    match s
    case Neutral(m) =>
      var counters := Greeted(m, name);
      if counters[name] > 2 then Happy else Neutral(counters)
    case Happy => Happy
  }

  /** While Neutral, every recorded counter is 1 or 2. */
  ghost predicate Calm(s: ConversationState)
  {
    s.Neutral? ==> forall n :: n in s.playersConversations ==> 1 <= s.playersConversations[n] <= 2
  }

  /** A greeting keeps the dialog calm, and it turns Happy exactly when the greeted
      player's counter was already 2 (the greeting that makes it exceed 2). */
  lemma GreetKeepsCalm(s: ConversationState, name: string)
    requires Calm(s)
    ensures Calm(AfterGreet(s, name))
    ensures s.Neutral? ==>
      (AfterGreet(s, name) == Happy <==>
        name in s.playersConversations && s.playersConversations[name] == 2)
  {
  }

  /** Greeting `name` `k` times. */
  function GreetTimes(s: ConversationState, name: string, k: nat): ConversationState
  {
    if k == 0 then s else AfterGreet(GreetTimes(s, name, k - 1), name)
  }

  /** From a fresh dialog, greeting the same player twice keeps it Neutral with that
      counter at 2; the third and every later greeting leave it Happy. */
  lemma {:induction false} ThirdGreetingPleases(name: string, k: nat)
    ensures GreetTimes(Neutral(map[]), name, k) ==
      if k >= 3 then Happy
      else if k == 0 then Neutral(map[])
      else Neutral(map[name := k])
  {
    if k > 0 {
      ThirdGreetingPleases(name, k - 1);
    }
  }

  class DialogBehavior {
    var CurrentState: ConversationState

    constructor ()
      ensures CurrentState == Neutral(map[])
    {
      CurrentState := Neutral(map[]);
    }

    method Greet(player: Player)
      modifies this
      ensures CurrentState == AfterGreet(old(CurrentState), player.name)
    {
      match CurrentState
      case Neutral(conversations) =>
        if player.name in conversations {
          conversations := conversations[player.name := conversations[player.name] + 1];
        } else {
          conversations := conversations[player.name := 1];
        }
        CurrentState := Neutral(conversations);
        if conversations[player.name] > 2 {
          CurrentState := Happy;
        }
      case Happy =>
    }
  }

  // ---------------------------------------------------------------- NPC

  class Npc {
    var Position: Vector3
    var Movement: MovementBehavior?
    var Dialog: DialogBehavior
    var Attacking: AttackBehavior

    constructor ()
      ensures Position == Origin
      ensures Movement != null && fresh(Movement) && Movement.npc == this
      ensures Movement.CurrentState == Idle && Movement.Endurance == 5
      ensures fresh(Dialog) && Dialog.CurrentState == Neutral(map[])
      ensures fresh(Attacking) && Attacking.CurrentState == NoAtack && Attacking.Weapon == None
    {
      Position := Origin;
      Movement := null;
      Dialog := new DialogBehavior();
      Attacking := new AttackBehavior();
      new;
      Movement := new MovementBehavior(this);
    }
  }

  /** The demo run: four greetings, an attack without and one with a weapon, a move with
      the initial endurance and one after setting it to 10. */
  method Demo() returns (bot: Npc)
    ensures bot.Dialog.CurrentState == Happy
    ensures bot.Attacking.CurrentState == MeeleeAttack
    ensures bot.Movement != null && bot.Movement.CurrentState == Idle && bot.Movement.Endurance == 10
    ensures bot.Position == RunTarget
  {
    bot := new Npc();
    var player := Player("artistotless");
    bot.Dialog.Greet(player);
    bot.Dialog.Greet(player);
    bot.Dialog.Greet(player);
    assert bot.Dialog.CurrentState == Happy;
    bot.Dialog.Greet(player);

    var _ := bot.Attacking.Attack(player);
    assert bot.Attacking.CurrentState == NoAtack;
    bot.Attacking.SetWeapon(Some(Weapon));
    var _ := bot.Attacking.Attack(player);

    var movement := bot.Movement;
    var _ := movement.Move();
    MoveFromIdle(5, Origin);
    assert bot.Position == WalkTarget;
    movement.Endurance := 10;
    var _ := movement.Move();
    MoveFromIdle(10, WalkTarget);
  }
}
