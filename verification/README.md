# Design-pattern demos: the stateful core, modelled in Dafny

The repository is a catalogue of small C# design-pattern demos. This project models the
six demos whose behaviour is sequential, stateful and exact, one Dafny module per source
file:

- `StatePattern` (`state_pattern.dfy`): an NPC with three state machines. Movement
  (Idle, Walk, Run) is driven by an `Endurance` counter that loops count down, and it always
  settles back in Idle with endurance 10. Attack (NoAtack, MeeleeAttack) follows whether a
  weapon is held. Dialog (Neutral, Happy) keeps a greeting counter per player and turns
  Happy on a player's third greeting.
- `Command` (`command.dfy`): an invoker keeps a LIFO history of move commands over a board
  of four figures. Execute and undo move the first figure in place.
- `Memento` (`memento.dfy`): mouse settings with four fields and setters, plus named
  presets that copy those fields and later write them back.
- `Builder` (`builder.dfy`): a nutrition-plan builder that appends foods. `Build` fails
  when the plan has fewer than 45 calories per kilogram of the client's weight. The plan's
  text is a total line followed by one line per food.
- `Iterator` (`iterator.dfy`): a car park over a list, with add and remove-all-by-name,
  and a cursor enumerator.
- `ChainOfResponsibility` (`cor.dfy`): a two-handler middleware chain. Its only observable
  effect is the console trace, modelled as a returned sequence of lines.
- `Wrappers` (`wrappers.dfy`): `Option` for nullable references, and `Result` for an
  operation that throws.

Mutable objects are Dafny classes whose methods carry `modifies` clauses. Their
`ensures` clauses tie the new state to functions of the old state, and lemmas about those
functions state the demos' promises. Examples are termination and the final state of
`Move`, the third-greeting switch, order preservation of `Remove`, and the nesting of the
middleware trace. The `Main` of each class-based demo is modelled as a `Demo` method
whose postcondition is the outcome of that scenario. The middleware chain has no `Demo`
method: its `Main` (Behavioral/CoR.cs:15-24) is covered by the lemma `PipelineTrace`,
which gives the pipeline's output for every user and request.

## Model

| member | source | states |
|---|---|---|
| StatePattern.Exhausted | Behavioral/StatePattern.cs:132-133 | `while (Endurance-- > 0)` leaves Endurance below its start and at most -1, and exactly -1 when it started at 0 or more |
| StatePattern.Rank | Behavioral/StatePattern.cs:100-163 | the measure of the re-dispatch chain Idle, Walk, Run, Idle: 3, 2, 1, then 0 in Idle without endurance. Termination is stated by the `decreases` clauses of `Moved` and the Move methods, which use it, and by `Moved`'s bound on the route length |
| StatePattern.Moved | Behavioral/StatePattern.cs:100-163 | from any state, Move ends in Idle with Endurance 10, with the NPC left in place or at (10,0,2) or (50,0,17), after at most Rank state changes, the last of them into Idle |
| StatePattern.MoveFromIdle | Behavioral/StatePattern.cs:100-163 | Move from Idle: endurance of 0 or less leaves the position unchanged with no state change; 1..5 goes Walk, Idle and ends at (10,0,2); more than 5 goes Walk, Run, Idle and ends at (50,0,17) |
| StatePattern.MoveTwice | Behavioral/StatePattern.cs:100-114 | a Move that follows any Move starts from Idle with endurance 10, so it always runs to (50,0,17) |
| StatePattern.MovementBehavior.constructor | Behavioral/StatePattern.cs:72-77 | a new movement behaviour is Idle with Endurance 5 and belongs to its NPC |
| StatePattern.MovementBehavior.ChangePosition | Behavioral/StatePattern.cs:82-83 | sets the NPC's position and touches no other field |
| StatePattern.MovementBehavior.Move | Behavioral/StatePattern.cs:85-86 | the new state, endurance, position and the route of states switched to equal `Moved` of the old ones |
| StatePattern.MovementBehavior.IdleMove | Behavioral/StatePattern.cs:100-114 | Idle with endurance switches to Walk and re-dispatches; without endurance it resets Endurance to 10 and stays Idle |
| StatePattern.MovementBehavior.WalkMove | Behavioral/StatePattern.cs:121-142 | Walk with endurance over 5 switches to Run; otherwise it counts endurance down, moves to (10,0,2) and goes back to Idle |
| StatePattern.MovementBehavior.RunMove | Behavioral/StatePattern.cs:149-163 | Run counts endurance down, moves to (50,0,17) and goes back to Idle |
| StatePattern.MovementBehavior.Exhaust | Behavioral/StatePattern.cs:132-133 | the countdown loop leaves Endurance at `Exhausted` of its old value |
| StatePattern.AttackBehavior.constructor | Behavioral/StatePattern.cs:173-176 | a new attack behaviour holds no weapon and is in NoAtack |
| StatePattern.AttackBehavior.SetWeapon | Behavioral/StatePattern.cs:178-179 | sets the weapon slot only |
| StatePattern.AttackBehavior.Attack | Behavioral/StatePattern.cs:181-182 | afterwards the state is MeeleeAttack exactly when a weapon is held; the call makes at most one state change, and none when the state already matched |
| StatePattern.AttackBehavior.NoAtackAttack | Behavioral/StatePattern.cs:196-206 | NoAtack with a weapon switches once to MeeleeAttack; without one it stays |
| StatePattern.AttackBehavior.MeeleeAttackAttack | Behavioral/StatePattern.cs:213-223 | MeeleeAttack without a weapon switches once to NoAtack; with one it stays |
| StatePattern.Greeted | Behavioral/StatePattern.cs:255-258 | the greeted player's counter goes up by one, or is inserted as 1 when absent; every other player's counter is unchanged and no other key appears |
| StatePattern.AfterGreet | Behavioral/StatePattern.cs:271-274 | a Happy dialog stays Happy, whoever is greeted |
| StatePattern.GreetKeepsCalm | Behavioral/StatePattern.cs:255-261 | while Neutral every counter is 1 or 2; a greeting keeps that, and turns the dialog Happy exactly when the greeted player's counter was already 2 |
| StatePattern.ThirdGreetingPleases | Behavioral/StatePattern.cs:253-264 | greeting one player k times from a fresh dialog: k = 1 or 2 stays Neutral with counter k, and the third and every later greeting leave it Happy |
| StatePattern.DialogBehavior.constructor | Behavioral/StatePattern.cs:232-235 | a new dialog is Neutral with no counters |
| StatePattern.DialogBehavior.Greet | Behavioral/StatePattern.cs:237-238 | the new dialog state is `AfterGreet` of the old one and the player's name |
| StatePattern.Npc.constructor | Behavioral/StatePattern.cs:44-49 | a new NPC is at the origin, with movement Idle and Endurance 5, attack NoAtack without a weapon, and dialog Neutral |
| StatePattern.Demo | Behavioral/StatePattern.cs:12-31 | after the demo run the dialog is Happy, the NPC attacks in melee, and movement is Idle with Endurance 10 at (50,0,17) |
| Command.Figure.constructor | Behavioral/Command.cs:34-37 | a figure starts at the given position |
| Command.BoardContext.constructor | Behavioral/Command.cs:62-71 | a new board holds four distinct fresh figures at (1,1), (1,3), (1,5), (1,7) |
| Command.MoveCommand.constructor | Behavioral/Command.cs:81-85 | a command keeps its start and end poses and has no board yet |
| Command.MoveCommand.Execute | Behavioral/Command.cs:87-97 | the first figure moves to the end pose, no other figure moves, and the board is remembered for Undo |
| Command.MoveCommand.Undo | Behavioral/Command.cs:99-106 | the remembered board's first figure goes to the constructor's start pose, not to where it was before Execute; no other figure moves |
| Command.CommandInvoker.constructor | Behavioral/Command.cs:45-46 | a new invoker has an empty history over the given board |
| Command.CommandInvoker.RunNext | Behavioral/Command.cs:48-52 | the command goes on top of the history and then runs on the invoker's board; every command in the history has run on that board |
| Command.CommandInvoker.Undo | Behavioral/Command.cs:54-55 | pops the most recent command and undoes it, so undo is LIFO; an empty history fails (the stack's Pop throws) and changes nothing |
| Command.Demo | Behavioral/Command.cs:11-21 | moving (1,1) to (2,2) and then undoing leaves the board as it started |
| Memento.MouseSettings.constructor | Behavioral/Memento.cs:59-65 | new settings are sensitivity 1, colour AliceBlue, RGB on, DPI 800 |
| Memento.MouseSettings.SavePreset | Behavioral/Memento.cs:81-82 | a fresh preset, with the given name, tied to these settings, holding the four current values |
| Memento.MouseSettings.SetSensetivity | Behavioral/Memento.cs:84-85 | changes the sensitivity and no other field |
| Memento.MouseSettings.SetRgbColor | Behavioral/Memento.cs:87-88 | changes the colour and no other field |
| Memento.MouseSettings.SetRgb | Behavioral/Memento.cs:90-91 | changes the RGB switch and no other field |
| Memento.MouseSettings.SetDpi | Behavioral/Memento.cs:93-94 | changes the DPI and no other field |
| Memento.MouseSettingsPreset.constructor | Behavioral/Memento.cs:109-119 | the preset copies the four fields at call time and keeps its name; later setter calls modify only the settings, so they leave it alone |
| Memento.MouseSettingsPreset.Restore | Behavioral/Memento.cs:121-127 | the settings' four fields become the saved values; only the settings are modified, so the preset is unchanged, a second Restore changes nothing, and the last restore wins |
| Memento.Demo | Behavioral/Memento.cs:17-39 | "default" holds the defaults, "my_preset" holds sensitivity 1.78, RGB off, DPI 400, and after restoring both in that order the settings equal "my_preset" |
| Builder.Food.Callories | Creational/Builder.cs:68-90 | the calorie constants: curd 10, gainer 400, bread 100, pasta 200 |
| Builder.Food.Name | Creational/Builder.cs:71-89 | each food's own display name: curd "Творог", gainer "Гейнер от Maxler", bread "Хлеб", pasta "Макароны Шебекинские" |
| Builder.Food.TypeName | Creational/Builder.cs:58 | the class name `GetType().Name` prints for each food: Curd, MaxlerGainer, Bread and Pasta respectively |
| Builder.Food.NamesIdentify | Creational/Builder.cs:58 | different foods have different names and different class names, so each printed food line identifies its food |
| Builder.Total | Creational/Builder.cs:129 | `Foods.Sum(x => x.Callories)`: every food has at least 10 calories, so the sum is at least 10 per food |
| Builder.TotalAppend | Creational/Builder.cs:129 | appending a food adds exactly its calories to the plan's total |
| Builder.NatToString | Creational/Builder.cs:54 | a number prints as at least one decimal digit, with no leading zero |
| Builder.NatToStringRoundTrip | Creational/Builder.cs:54 | reading the printed total back as decimal gives the total |
| Builder.FoodLine | Creational/Builder.cs:58 | a food's line starts with the food's name and ends with the line break, so each food gets a line of its own that names it (`Food.NamesIdentify`) |
| Builder.TotalLine | Creational/Builder.cs:54 | the first line starts with "Total callories: " and ends with the line break; the total is printed between them |
| Builder.PlanText | Creational/Builder.cs:51-62 | the text starts with the total line for `Total(foods)`, followed by one line per food in list order (`FoodLinesConcat`, `PlanTextAppend`); an empty plan prints only "Total callories: 0" |
| Builder.NutritionPlan.ToString | Creational/Builder.cs:51-62 | the plan's text (`PlanText` of its foods) starts with the total line for the sum of its foods' calories |
| Builder.FoodLinesConcat | Creational/Builder.cs:56-59 | the food lines of two lists one after the other are the first list's lines followed by the second's, so every food's line sits where the food sits in the list (by induction on the second list) |
| Builder.TotalLineAppend | Creational/Builder.cs:54 | the total line of a plan with one more food prints the old total plus that food's calories |
| Builder.PlanTextAppend | Creational/Builder.cs:51-62 | the text of a plan with one more food is the total line with the new total, then the old food lines, then the new food's line |
| Builder.NutritionPlan.constructor | Creational/Builder.cs:49 | a new plan has no foods |
| Builder.WeightGainNutritionPlanBuilder.constructor | Creational/Builder.cs:101-104 | a new builder has a fresh empty plan and the given weight |
| Builder.WeightGainNutritionPlanBuilder.AddFats | Creational/Builder.cs:106-111 | appends exactly the given food at the end of the plan and returns the same builder |
| Builder.WeightGainNutritionPlanBuilder.AddProtein | Creational/Builder.cs:113-118 | appends exactly the given food at the end of the plan and returns the same builder |
| Builder.WeightGainNutritionPlanBuilder.AddCarbohydrates | Creational/Builder.cs:120-125 | appends exactly the given food at the end of the plan and returns the same builder |
| Builder.WeightGainNutritionPlanBuilder.Build | Creational/Builder.cs:127-133 | fails with the "Need more calories" message exactly when the total is below weight × 45; otherwise it returns the builder's own plan, foods unchanged |
| Builder.Demo | Creational/Builder.cs:12-26 | the plan for 10 kg holds gainer, bread, curd, pasta in that order, totals 710 and builds without error |
| Iterator.Without | Behavioral/Iterator.cs:35-36 | a car remains exactly when it was in the park and its name differs from the removed one; the list does not grow |
| Iterator.WithoutAppend | Behavioral/Iterator.cs:35-36 | removing from a concatenation removes from each part and keeps the parts in order, so the remaining cars keep their relative order |
| Iterator.WithoutAbsent | Behavioral/Iterator.cs:35-36 | removing a name that no car has leaves the park unchanged |
| Iterator.WithoutIdempotent | Behavioral/Iterator.cs:35-36 | removing the same name twice is the same as removing it once |
| Iterator.AutoPark.constructor | Behavioral/Iterator.cs:30 | a new park is empty |
| Iterator.AutoPark.Add | Behavioral/Iterator.cs:32-33 | appends the car at the end of the park |
| Iterator.AutoPark.Remove | Behavioral/Iterator.cs:35-36 | the park becomes `Without` of its old cars and the name |
| Iterator.AutoPark.GetEnumerator | Behavioral/Iterator.cs:38-39 | a fresh enumerator over this park with the cursor at -1 |
| Iterator.Enumerator.constructor | Behavioral/Iterator.cs:47-50 | a new enumerator starts with the cursor at -1 |
| Iterator.Enumerator.Current | Behavioral/Iterator.cs:52 | defined only while 0 ≤ cursor < Count; the car it gives is one of the park's cars |
| Iterator.Enumerator.MoveNext | Behavioral/Iterator.cs:62-65 | advances the cursor by one and answers whether it is still on a car |
| Iterator.Enumerator.Reset | Behavioral/Iterator.cs:67-70 | puts the cursor back to -1 |
| Iterator.Advance | Behavioral/Iterator.cs:62-70 | from cursor -1 over n cars, MoveNext answers true for the first n calls and false on every later call |
| Iterator.Collect | Behavioral/Iterator.cs:20-21 | enumerating the park yields exactly its cars in insertion order: after the k-th successful MoveNext, Current is the k-th car |
| Iterator.Demo | Behavioral/Iterator.cs:9-24 | the three demo cars come out of the foreach in the order they were added |
| ChainOfResponsibility.Text | Behavioral/CoR.cs:34-38 | a start line is the handler's class name followed by " start", an end line is the name followed by " end", and a handler's own message prints as it is |
| ChainOfResponsibility.Render | Behavioral/CoR.cs:34-38 | the printed text has one line per trace line, each the text of that trace line |
| ChainOfResponsibility.Handle | Behavioral/CoR.cs:40-45 | the trace opens with "<Type> start" and closes with "<Type> end", and every line between lies strictly inside that pair: a successor's block is nested within its predecessor's |
| ChainOfResponsibility.Run | Behavioral/CoR.cs:63-86 | a handler's own output between its start and end lines is depth-balanced: no prefix holds more end lines than start lines, and the counts are equal at the end |
| ChainOfResponsibility.PassToNext | Behavioral/CoR.cs:49-53 | with no successor nothing is printed; otherwise the output is the successor's own enclosed block, opened by its start line and closed by its end line |
| ChainOfResponsibility.AuthorizationGate | Behavioral/CoR.cs:63-69 | Authorization forwards exactly admin users; anyone else gets "user role is not 'admin'" and nothing after it runs |
| ChainOfResponsibility.EndpointGate | Behavioral/CoR.cs:79-86 | EndpointResolver forwards exactly when the resource is "admin-panel"; a null or any other resource gets "404 NotFound" |
| ChainOfResponsibility.PipelineTrace | Behavioral/CoR.cs:17-21 | the Authorization, EndpointResolver pipeline prints one of three texts: refusal for users, a nested 404 for admins asking for anything other than "admin-panel", or two empty nested blocks |
| ChainOfResponsibility.UserNeverPassesAuthorization | Behavioral/CoR.cs:63-69 | a user-role request never reaches any handler after Authorization, whatever the resource and whatever follows |

## Left out

- Console output is not modelled, except in the middleware chain, where the trace is the
  only effect. This covers the NPC's narration, the command and memento messages, the
  printed plan (its text is modelled as `PlanText`) and the car listing.
- `Thread.Sleep` and the unawaited `Task.Delay` in the State demo, and the `Task.Delay`
  calls in the other demos, have no effect on state. They are not modelled.
- `Vector3` is a float triple in the source. Only the integer constants (0,0,0), (10,0,2)
  and (50,0,17) are ever written, so the model uses an integer triple.
- StatePattern.Exhausted: the source's `int` would wrap when counted down from its
  minimum value. This is not modelled. Walk and Run are only entered with positive
  Endurance, so the wrap cannot happen through Move.
- `Npc.Movement` is nullable in the model, because a Dafny constructor cannot pass `this`
  to another constructor before its own fields are set.
- Command: the invoker is generic over `ICommand` in the source, but `MoveCommand` is the
  only command there is. The model's invoker holds `MoveCommand`s.
- Command.CommandInvoker.Undo: the source throws on an empty history. The model returns
  `popped == false` instead and changes nothing.
- Command.MoveCommand.Undo: it requires a remembered board. An Undo before any Execute
  dereferences a null board and throws `NullReferenceException` in the source
  (Behavioral/Command.cs:105). That path is not modelled. The invoker only undoes
  commands it has executed, so it never takes that path.
- Command: `Figures` has a public setter that nothing uses. The model requires that the
  first figure is not aliased in another slot.
- Memento: the lock-guarded singleton `MouseSettings.Instance` is a concurrency idiom. It
  is replaced by an explicitly constructed settings object. The preset's `Created`
  timestamp (`DateTime.Now`) is a clock read and is left out. The `float` sensitivity is a
  `real` and the `Color` an ARGB value; both are only copied.
- Builder: `AddСarbohydrates` has a Cyrillic `С` in its name in the source. Here it is
  `AddCarbohydrates`. The food interfaces are subset types of one `Food` datatype. The
  line break written by `AppendLine` is "\n".
- Builder.FoodLine: the contract states the name at the start and the line break at the
  end. It does not state the " : ", " - " and " callories" parts in between. The function
  body writes the whole line as the source formats it.
- Builder.WeightGainNutritionPlanBuilder.Build: integers are unbounded. The overflow of
  `_currentWeight * 45`, and the `OverflowException` of a calorie `Sum` past the `int`
  range, are not modelled.
- Iterator: the enumerator is a C# struct. It is modelled as a class, since it is used
  through one reference. `Dispose` (Behavioral/Iterator.cs:56-60) is not modelled. The
  demo's `foreach` calls it after the loop: it sets the park reference to null and the
  cursor to -1, and nothing uses the enumerator afterwards. The cursor's `int` overflow
  after 2^31 calls to `MoveNext` is not modelled either.
- Behavioral/Observer.cs (concurrent queues, tasks, timeouts, `System.Reactive`) is not
  part of this model. Neither are Structural/Adapter.cs (floating-point prices),
  Behavioral/TemplateMethod.cs, Behavioral/Mediator.cs, Behavioral/Strategy.cs,
  Behavioral/Visitor.cs, Creational/FabricMethod.cs, Creational/AbstractFactory.cs,
  Creational/Singleton.cs, Program.cs and LaunchablePattern.cs. These are console
  narration, random or delayed simulations, constant object selection, or launcher
  plumbing.
