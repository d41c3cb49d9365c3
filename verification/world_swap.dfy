/** The render sub-app's world hand-over (`extract`) and its per-tick stage
    sequence. Two worlds change hands every tick: the render world, which
    the sub-app owns and lends to the app world as the `RenderWorld`
    resource while the extract systems run, and the scratch world, which
    the app world keeps as the `ScratchRenderWorld` resource and lends to
    the sub-app meanwhile. */
module WorldSwap {
  import opened Common

  type Entity = nat

  /** Everything a world stores besides its entities, as one opaque value. */
  type ResourceState = nat

  /** What a world holds. Worlds are otherwise opaque here. */
  datatype Contents = Contents(entities: set<Entity>, resources: ResourceState)

  /** `World::default()`: no entities, no resources. */
  const EmptyContents := Contents({}, 0)

  /** A world object. Its `id` is the identity that moves between holders;
      the systems only ever see and change its contents. */
  datatype World = World(id: nat, contents: Contents)

  /** The app world as far as the hand-over is concerned: its own contents
      and the two resources that can carry a whole world. */
  datatype AppWorld = AppWorld(main: Contents, scratch: Option<World>, renderWorld: Option<World>)

  /** Why a tick panicked. */
  datatype Panic = MissingResource(name: string) | SystemPanic(stage: Stage)

  datatype Stage = SetupStage | ExtractStage | PrepareStage | RenderStage | CleanupStage

  // ---------------------------------------------------------------------
  // Buffered commands
  // ---------------------------------------------------------------------

  /** A command an extract system buffers through `Commands`. */
  datatype Command = Spawn(entity: Entity) | Despawn(entity: Entity) | SetResources(resources: ResourceState)

  function Apply(c: Contents, cmd: Command): Contents
  {
    match cmd
    case Spawn(e) => c.(entities := c.entities + {e})
    case Despawn(e) => c.(entities := c.entities - {e})
    case SetResources(s) => c.(resources := s)
  }

  /** `apply_buffers`: the buffered commands, applied in the order they
      were issued. */
  function ApplyBuffers(c: Contents, cmds: seq<Command>): Contents
    decreases |cmds|
  {
    if cmds == [] then c
    else Apply(ApplyBuffers(c, cmds[..|cmds| - 1]), cmds[|cmds| - 1])
  }

  /** Whether the last command about entity `e` spawned it (`Some(true)`),
      despawned it (`Some(false)`), or there is none (`None`). */
  function LastSpawn(cmds: seq<Command>, e: Entity): Option<bool>
    decreases |cmds|
  {
    if cmds == [] then None
    else
      var last := cmds[|cmds| - 1];
      if (last.Spawn? || last.Despawn?) && last.entity == e then Some(last.Spawn?)
      else LastSpawn(cmds[..|cmds| - 1], e)
  }

  /** The last `SetResources` value among the commands, if any. */
  function LastResources(cmds: seq<Command>): Option<ResourceState>
    decreases |cmds|
  {
    if cmds == [] then None
    else if cmds[|cmds| - 1].SetResources? then Some(cmds[|cmds| - 1].resources)
    else LastResources(cmds[..|cmds| - 1])
  }

  /** Applying a command buffer: an entity exists afterwards exactly when
      the last command about it spawned it, or no command mentioned it and
      it existed before; the resources are the last ones set, if any. */
  lemma {:induction false} ApplyBuffersLastWins(c: Contents, cmds: seq<Command>, e: Entity)
    ensures var r := ApplyBuffers(c, cmds);
      && (e in r.entities <==>
            match LastSpawn(cmds, e)
            case Some(spawned) => spawned
            case None => e in c.entities)
      && r.resources == (match LastResources(cmds) case Some(s) => s case None => c.resources)
    decreases |cmds|
  {
    if cmds != [] {
      ApplyBuffersLastWins(c, cmds[..|cmds| - 1], e);
    }
  }

  /** Applying two buffers one after the other is applying their
      concatenation. */
  lemma {:induction false} ApplyBuffersAppend(c: Contents, a: seq<Command>, b: seq<Command>)
    ensures ApplyBuffers(c, a + b) == ApplyBuffers(ApplyBuffers(c, a), b)
    decreases |b|
  {
    if b == [] {
      assert a + b == a;
    } else {
      assert (a + b)[..|a + b| - 1] == a + b[..|b| - 1];
      ApplyBuffersAppend(c, a, b[..|b| - 1]);
    }
  }

  // ---------------------------------------------------------------------
  // The hand-over
  // ---------------------------------------------------------------------

  /** What the extract stage's systems do, run against the app world: from
      the app world's contents and the `RenderWorld` resource's contents
      they produce new contents for both and a command buffer, or panic
      (`None`), as an `unwrap` in a system does. They cannot reach the
      scratch world, which the sub-app holds meanwhile. */
  type ExtractRun = (Contents, Contents) -> Option<(Contents, Contents, seq<Command>)>

  /** A configuration: the app world and the sub-app's current world. */
  datatype Config = Config(app: AppWorld, subWorld: World)

  /** How many places hold the world with identity `id`. */
  function Holders(c: Config, id: nat): nat
  {
    (if c.app.scratch.Some? && c.app.scratch.value.id == id then 1 else 0)
    + (if c.app.renderWorld.Some? && c.app.renderWorld.value.id == id then 1 else 0)
    + (if c.subWorld.id == id then 1 else 0)
  }

  /** Worlds `a` and `b` are different and each has exactly one holder. */
  predicate SoleHolders(c: Config, a: nat, b: nat)
  {
    a != b && Holders(c, a) == 1 && Holders(c, b) == 1
  }

  /** The first swap: take the scratch world out of the app world, install
      it as the sub-app's world, and lend the previous sub-app world to the
      app world as the `RenderWorld` resource. Panics without a scratch. */
  function Lend(c: Config): (r: Result<Config, Panic>)
    ensures r.Err? <==> c.app.scratch.None?
    ensures r.Err? ==> r.error == MissingResource("ScratchRenderWorld")
    ensures r.Ok? ==> r.value.app.main == c.app.main
  {
    match c.app.scratch
    case None => Err(MissingResource("ScratchRenderWorld"))
    case Some(scratch) => Ok(Config(c.app.(scratch := None, renderWorld := Some(c.subWorld)), scratch))
  }

  /** `extract.run(app_world)`: the systems see the app world only. The
      command buffer is kept aside; see `Extract` and `ExtractAsWritten`
      for where it is applied. */
  function RunExtract(c: Config, run: ExtractRun): (r: Result<(Config, seq<Command>), Panic>)
    ensures r.Err? <==> c.app.renderWorld.None? || run(c.app.main, c.app.renderWorld.value.contents).None?
    ensures r.Err? && c.app.renderWorld.Some? ==> r.error == SystemPanic(ExtractStage)
    ensures r.Ok? ==>
      var out := run(c.app.main, c.app.renderWorld.value.contents).value;
      && r.value.0.subWorld == c.subWorld
      && r.value.0.app.scratch == c.app.scratch
      && r.value.0.app.main == out.0
      && r.value.0.app.renderWorld == Some(World(c.app.renderWorld.value.id, out.1))
      && r.value.1 == out.2
  {
    match c.app.renderWorld
    case None => Err(MissingResource("RenderWorld"))
    case Some(rw) =>
      match run(c.app.main, rw.contents)
      case None => Err(SystemPanic(ExtractStage))
      case Some(out) => Ok((Config(c.app.(main := out.0, renderWorld := Some(rw.(contents := out.1))), c.subWorld), out.2))
  }

  /** The second swap: take the `RenderWorld` resource back as the sub-app's
      world and return the sub-app's current world to the app world as the
      scratch. Panics without a `RenderWorld` resource. */
  function Reclaim(c: Config): (r: Result<Config, Panic>)
    ensures r.Err? <==> c.app.renderWorld.None?
    ensures r.Err? ==> r.error == MissingResource("RenderWorld")
    ensures r.Ok? ==>
      && r.value.app.main == c.app.main
      && r.value.app.renderWorld.None?
      && r.value.app.scratch == Some(c.subWorld)
      && r.value.subWorld == c.app.renderWorld.value
  {
    match c.app.renderWorld
    case None => Err(MissingResource("RenderWorld"))
    case Some(rw) => Ok(Config(c.app.(renderWorld := None, scratch := Some(c.subWorld)), rw))
  }

  /** `extract` as evidently intended: lend, run the extract systems with
      their command buffers held back, reclaim, then apply the buffered
      commands to the sub-app's world. */
  function Extract(c: Config, run: ExtractRun): (r: Result<Config, Panic>)
    // a missing scratch world, or a panic inside the systems
    ensures r.Err? <==> c.app.scratch.None? || run(c.app.main, c.subWorld.contents).None?
    ensures c.app.scratch.None? ==> r == Err(MissingResource("ScratchRenderWorld"))
    ensures c.app.scratch.Some? && r.Err? ==> r.error == SystemPanic(ExtractStage)
    // the scratch world comes back untouched and no `RenderWorld` remains
    ensures r.Ok? ==> r.value.app.scratch == c.app.scratch && r.value.app.renderWorld.None?
    // the sub-app gets back its own world, as the systems and then the
    // buffered commands left it; the app world is as the systems left it
    ensures r.Ok? ==>
      var out := run(c.app.main, c.subWorld.contents).value;
      && r.value.subWorld == World(c.subWorld.id, ApplyBuffers(out.1, out.2))
      && r.value.app.main == out.0
  {
    var lent :- Lend(c);
    var ran :- RunExtract(lent, run);
    // the systems cannot remove `RenderWorld`, so the second swap finds it
    var back := Reclaim(ran.0).value;
    Ok(back.(subWorld := back.subWorld.(contents := ApplyBuffers(back.subWorld.contents, ran.1))))
  }

  /** `extract` as written: the Extract stage is a plain
      `SystemStage::parallel()`, whose `run` applies the systems' command
      buffers to the world it ran on, the app world, at the end of the
      stage. The `apply_buffers` call after the second swap then finds the
      buffers drained. */
  function ExtractAsWritten(c: Config, run: ExtractRun): (r: Result<Config, Panic>)
    ensures r.Err? <==> c.app.scratch.None? || run(c.app.main, c.subWorld.contents).None?
    ensures r.Ok? ==>
      var out := run(c.app.main, c.subWorld.contents).value;
      && r.value.subWorld == World(c.subWorld.id, out.1)
      && r.value.app.main == ApplyBuffers(out.0, out.2)
      && r.value.app.scratch == c.app.scratch
  {
    var lent :- Lend(c);
    var ran :- RunExtract(lent, run);
    var applied := ran.0.(app := ran.0.app.(main := ApplyBuffers(ran.0.app.main, ran.1)));
    var back := Reclaim(applied).value;
    Ok(back.(subWorld := back.subWorld.(contents := ApplyBuffers(back.subWorld.contents, []))))
  }

  /** The discrepancy: an extract system that spawns entity 7 through
      `Commands` spawns it in the app world as written, and in the render
      world as intended. */
  lemma {:induction false} SpawnLandsInAppWorldAsWritten()
    ensures var c := Config(AppWorld(EmptyContents, Some(World(1, EmptyContents)), None), World(2, EmptyContents));
      var run: ExtractRun := (main, rw) => Some((main, rw, [Spawn(7)]));
      && ExtractAsWritten(c, run).Ok?
      && 7 !in ExtractAsWritten(c, run).value.subWorld.contents.entities
      && 7 in ExtractAsWritten(c, run).value.app.main.entities
      && Extract(c, run).Ok?
      && 7 in Extract(c, run).value.subWorld.contents.entities
      && 7 !in Extract(c, run).value.app.main.entities
  {
    var c := Config(AppWorld(EmptyContents, Some(World(1, EmptyContents)), None), World(2, EmptyContents));
    var run: ExtractRun := (main, rw) => Some((main, rw, [Spawn(7)]));
    assert [Spawn(7)][..0] == [];
  }

  /** Extract systems that buffer no commands cannot tell the two apart:
      `extract` as written and as intended then give the same outcome. */
  lemma {:induction false} ExtractAgreesWithoutCommands(c: Config, run: ExtractRun)
    requires run(c.app.main, c.subWorld.contents).Some? ==> run(c.app.main, c.subWorld.contents).value.2 == []
    ensures ExtractAsWritten(c, run) == Extract(c, run)
  {
  }

  /** Under `Extract`, the commands the systems buffer decide the render
      world's entities and resources and leave the app world alone: an
      entity is in the render world afterwards exactly when the last command
      about it spawned it, or no command mentions it and the systems left it
      there. */
  lemma {:induction false} ExtractCommandsReachRenderWorld(c: Config, run: ExtractRun, e: Entity)
    requires Extract(c, run).Ok?
    ensures var out := run(c.app.main, c.subWorld.contents).value;
      var after := Extract(c, run).value;
      && (e in after.subWorld.contents.entities <==>
            match LastSpawn(out.2, e)
            case Some(spawned) => spawned
            case None => e in out.1.entities)
      && after.app.main == out.0
  {
    var out := run(c.app.main, c.subWorld.contents).value;
    ApplyBuffersLastWins(out.1, out.2, e);
  }

  /** With systems that change nothing, the two swaps undo each other. */
  lemma {:induction false} ExtractIdleRoundTrip(c: Config)
    requires c.app.scratch.Some? && c.app.renderWorld.None?
    ensures Extract(c, (main, rw) => Some((main, rw, []))) == Ok(c)
  {
  }

  /** Each of the two worlds has exactly one holder before, while the
      extract systems run, and after `extract`. While they run, the app
      world holds the render world and the sub-app holds the scratch. */
  lemma {:induction false} ExtractKeepsSoleHolders(c: Config, run: ExtractRun)
    requires c.app.scratch.Some?
    requires SoleHolders(c, c.app.scratch.value.id, c.subWorld.id)
    ensures var lent := Lend(c).value;
      && lent.app.renderWorld == Some(c.subWorld)
      && lent.app.scratch.None?
      && lent.subWorld == c.app.scratch.value
      && SoleHolders(lent, c.app.scratch.value.id, c.subWorld.id)
    ensures RunExtract(Lend(c).value, run).Ok? ==>
      SoleHolders(RunExtract(Lend(c).value, run).value.0, c.app.scratch.value.id, c.subWorld.id)
    ensures Extract(c, run).Ok? ==>
      && Extract(c, run).value.subWorld.id == c.subWorld.id
      && SoleHolders(Extract(c, run).value, c.app.scratch.value.id, c.subWorld.id)
  {
  }

  // ---------------------------------------------------------------------
  // One tick of the sub-app
  // ---------------------------------------------------------------------

  /** A stage's systems run on the sub-app's world; `None` is a panic. */
  type StageRun = Contents -> Option<Contents>

  /** The systems of the five stages. */
  datatype Schedule = Schedule(setup: StageRun, extract: ExtractRun, prepare: StageRun, render: StageRun, cleanup: StageRun)

  /** The sub-app: its world and whether the run-once Setup stage has run. */
  datatype SubApp = SubApp(world: World, setupDone: bool)

  /** A tick's outcome, with the stages whose systems ran, in order. */
  datatype TickOut = TickOut(app: AppWorld, sub: SubApp, ran: seq<Stage>)

  /** Runs one stage's systems on the sub-app's world and logs the stage
      after `log`. */
  function RunStage(w: World, log: seq<Stage>, stage: Stage, run: StageRun): (r: Result<(World, seq<Stage>), Panic>)
    ensures r.Err? <==> run(w.contents).None?
    ensures r.Err? ==> r.error == SystemPanic(stage)
    ensures r.Ok? ==> r.value.0.id == w.id && r.value.1 == log + [stage]
  {
    match run(w.contents)
    case None => Err(SystemPanic(stage))
    case Some(contents) => Ok((w.(contents := contents), log + [stage]))
  }

  /** The contents the Setup step hands on: the world untouched once Setup
      has run, else what its systems make of it. */
  function AfterSetup(sub: SubApp, sched: Schedule): Option<Contents>
  {
    if sub.setupDone then Some(sub.world.contents) else sched.setup(sub.world.contents)
  }

  /** The sub-app closure: Setup (its systems run on the first tick only),
      Extract, Prepare, Render, Cleanup, then every entity of the render
      world is cleared. Each stage that runs appends itself to the log. */
  function Tick(app: AppWorld, sub: SubApp, sched: Schedule): (r: Result<TickOut, Panic>)
    // the stages' systems are composed in the order Setup (first tick
    // only), Extract with its commands, Prepare, Render, Cleanup
    ensures r.Ok? ==>
      && AfterSetup(sub, sched).Some?
      && sched.extract(app.main, AfterSetup(sub, sched).value).Some?
      && var x := sched.extract(app.main, AfterSetup(sub, sched).value).value;
         var e := ApplyBuffers(x.1, x.2);
         && sched.prepare(e).Some?
         && sched.render(sched.prepare(e).value).Some?
         && sched.cleanup(sched.render(sched.prepare(e).value).value).Some?
         && r.value.sub.world.contents == sched.cleanup(sched.render(sched.prepare(e).value).value).value.(entities := {})
         && r.value.app.main == x.0
    ensures r.Ok? ==>
      && r.value.ran == TickLog(sub.setupDone)
      && r.value.sub.setupDone
    // the render world keeps its identity and ends the tick without entities
    ensures r.Ok? ==>
      && r.value.sub.world.id == sub.world.id
      && r.value.sub.world.contents.entities == {}
    // the scratch world is the same before and after
    ensures r.Ok? ==> r.value.app.scratch == app.scratch && r.value.app.renderWorld.None?
    ensures r.Err? ==> r.error == MissingResource("ScratchRenderWorld") || r.error.SystemPanic?
    ensures app.scratch.None? && AfterSetup(sub, sched).Some? ==>
      r == Err(MissingResource("ScratchRenderWorld"))
  {
    var setUp :- if sub.setupDone then Ok((sub.world, [])) else RunStage(sub.world, [], SetupStage, sched.setup);
    var extracted :- Extract(Config(app, setUp.0), sched.extract);
    var prepared :- RunStage(extracted.subWorld, setUp.1 + [ExtractStage], PrepareStage, sched.prepare);
    var rendered :- RunStage(prepared.0, prepared.1, RenderStage, sched.render);
    var cleaned :- RunStage(rendered.0, rendered.1, CleanupStage, sched.cleanup);
    var cleared := cleaned.0.(contents := cleaned.0.contents.(entities := {}));
    Ok(TickOut(extracted.app, SubApp(cleared, true), cleaned.1))
  }

  /** A tick completes exactly when the scratch world is there and no
      stage's systems panic: Setup (unless it has run), Extract, then
      Prepare, Render and Cleanup on the extracted world with the buffered
      commands applied. */
  lemma {:induction false} TickCompletes(app: AppWorld, sub: SubApp, sched: Schedule)
    ensures Tick(app, sub, sched).Ok? <==>
      && app.scratch.Some?
      && AfterSetup(sub, sched).Some?
      && sched.extract(app.main, AfterSetup(sub, sched).value).Some?
      && var x := sched.extract(app.main, AfterSetup(sub, sched).value).value;
         var e := ApplyBuffers(x.1, x.2);
         && sched.prepare(e).Some?
         && sched.render(sched.prepare(e).value).Some?
         && sched.cleanup(sched.render(sched.prepare(e).value).value).Some?
  {
  }

  /** Once Setup has run, its systems play no part: a tick is the same
      whatever they are. */
  lemma {:induction false} TickIgnoresSetupOnceDone(app: AppWorld, w: World, sched: Schedule, setup: StageRun)
    ensures Tick(app, SubApp(w, true), sched) == Tick(app, SubApp(w, true), sched.(setup := setup))
  {
  }

  /** `n` ticks in a row; the stage logs are concatenated. */
  function Ticks(app: AppWorld, sub: SubApp, sched: Schedule, n: nat): (r: Result<TickOut, Panic>)
    ensures r.Ok? && n > 0 ==> r.value.sub.setupDone
    decreases n
  {
    if n == 0 then Ok(TickOut(app, sub, []))
    else
      match Tick(app, sub, sched)
      case Err(e) => Err(e)
      case Ok(first) =>
        match Ticks(first.app, first.sub, sched, n - 1)
        case Err(e) => Err(e)
        case Ok(rest) => Ok(TickOut(rest.app, rest.sub, first.ran + rest.ran))
  }

  /** After the first tick the Setup systems never matter again: any number
      of ticks from a sub-app whose Setup has run is the same whatever they
      are. */
  lemma {:induction false} TicksIgnoreSetupOnceDone(app: AppWorld, sub: SubApp, sched: Schedule, setup: StageRun, n: nat)
    requires sub.setupDone
    ensures Ticks(app, sub, sched, n) == Ticks(app, sub, sched.(setup := setup), n)
    decreases n
  {
    if n > 0 {
      TickIgnoresSetupOnceDone(app, sub.world, sched, setup);
      match Tick(app, sub, sched)
      case Err(_) =>
      case Ok(first) =>
        TicksIgnoreSetupOnceDone(first.app, first.sub, sched, setup, n - 1);
    }
  }

  function CountStage(log: seq<Stage>, s: Stage): nat
    decreases |log|
  {
    if log == [] then 0 else (if log[0] == s then 1 else 0) + CountStage(log[1..], s)
  }

  lemma {:induction false} CountStageAppend(a: seq<Stage>, b: seq<Stage>, s: Stage)
    ensures CountStage(a + b, s) == CountStage(a, s) + CountStage(b, s)
    decreases |a|
  {
    if a == [] {
      assert a + b == b;
    } else {
      assert (a + b)[1..] == a[1..] + b;
      CountStageAppend(a[1..], b, s);
    }
  }

  /** The stages whose systems run in one tick. */
  function TickLog(setupDone: bool): seq<Stage>
  {
    (if setupDone then [] else [SetupStage]) + [ExtractStage, PrepareStage, RenderStage, CleanupStage]
  }

  lemma {:induction false} TickLogCounts(setupDone: bool)
    ensures CountStage(TickLog(setupDone), SetupStage) == (if setupDone then 0 else 1)
    ensures CountStage(TickLog(setupDone), ExtractStage) == 1
    ensures CountStage(TickLog(setupDone), CleanupStage) == 1
  {
    var tail := [ExtractStage, PrepareStage, RenderStage, CleanupStage];
    forall s: Stage
      ensures CountStage(tail, s) == (if s == SetupStage then 0 else 1)
    {
      assert CountStage(tail[3..], s) == (if s == CleanupStage then 1 else 0);
      assert tail[2..][1..] == tail[3..];
      assert tail[1..][1..] == tail[2..];
    }
    if !setupDone {
      assert TickLog(setupDone)[1..] == tail;
    } else {
      assert TickLog(setupDone) == tail;
    }
  }

  /** Over any number of completed ticks the Setup stage's systems run at
      most once, and exactly once when they had not run before; every tick
      runs Extract, Prepare, Render and Cleanup once each. The scratch world
      is never changed, and the render world keeps its identity. */
  lemma {:induction false} TicksRunSetupOnce(app: AppWorld, sub: SubApp, sched: Schedule, n: nat)
    requires Ticks(app, sub, sched, n).Ok?
    ensures var out := Ticks(app, sub, sched, n).value;
      && CountStage(out.ran, SetupStage) == (if sub.setupDone || n == 0 then 0 else 1)
      && CountStage(out.ran, ExtractStage) == n
      && CountStage(out.ran, CleanupStage) == n
      && |out.ran| == 4 * n + (if sub.setupDone || n == 0 then 0 else 1)
      && (n > 0 ==> out.sub.setupDone)
      && out.app.scratch == app.scratch
      && out.sub.world.id == sub.world.id
    decreases n
  {
    if n > 0 {
      var first := Tick(app, sub, sched).value;
      TicksRunSetupOnce(first.app, first.sub, sched, n - 1);
      var rest := Ticks(first.app, first.sub, sched, n - 1).value;
      TickLogCounts(sub.setupDone);
      CountStageAppend(first.ran, rest.ran, SetupStage);
      CountStageAppend(first.ran, rest.ran, ExtractStage);
      CountStageAppend(first.ran, rest.ran, CleanupStage);
    }
  }

  // ---------------------------------------------------------------------
  // Plugin build
  // ---------------------------------------------------------------------

  /** `build`: `init_resource::<ScratchRenderWorld>()` adds an empty
      scratch world only when there is none yet; the sub-app starts with a
      fresh world into which the renderer setup has put its resources, and
      the Setup stage has not run. */
  function Build(app: AppWorld, scratchId: nat, renderId: nat, setupResources: ResourceState): (r: (AppWorld, SubApp))
    ensures r.0.scratch.Some?
    ensures app.scratch.Some? ==> r.0 == app
    ensures app.scratch.None? ==> r.0 == app.(scratch := Some(World(scratchId, EmptyContents)))
    ensures r.1 == SubApp(World(renderId, Contents({}, setupResources)), false)
  {
    var app' := if app.scratch.None? then app.(scratch := Some(World(scratchId, EmptyContents))) else app;
    (app', SubApp(World(renderId, Contents({}, setupResources)), false))
  }

  /** After the plugin is built, a tick can only panic inside a stage's
      systems: the hand-over always finds its scratch world, and the two
      worlds each have one holder. */
  lemma {:induction false} BuildThenTick(app: AppWorld, scratchId: nat, renderId: nat, setupResources: ResourceState, sched: Schedule)
    requires app.renderWorld.None?
    requires (if app.scratch.Some? then app.scratch.value.id else scratchId) != renderId
    ensures var built := Build(app, scratchId, renderId, setupResources);
      SoleHolders(Config(built.0, built.1.world), built.0.scratch.value.id, renderId)
    ensures var built := Build(app, scratchId, renderId, setupResources);
      var r := Tick(built.0, built.1, sched);
      r.Err? ==> r.error.SystemPanic?
  {
  }
}
