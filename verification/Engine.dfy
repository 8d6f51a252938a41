/** The engine as a value: the request counter, the active requests, the KV cache
    and the runner, and the three calls that keep them in step. */
module Engine {
  import opened Wrappers
  import opened Running
  import opened RunningProofs
  import opened RunningRuns
  import Kv = PagedKv
  import Pages = PagedKvRuns

  datatype Params = Params(maxTokens: int, priority: int, stops: set<int>)

  datatype Engine = Engine(counter: nat, active: map<nat, Params>, kv: Pages.World, run: World)

  /** A call that raises leaves the state it has reached behind. */
  datatype Called<+T> = Done(value: T, engine: Engine) | Raised(error: Kv.KvError, engine: Engine)

  ghost predicate EngineShape(cfg: Kv.Config, e: Engine) {
    Kv.Shape(cfg, e.kv.cache) && RunOk(e.run)
  }

  function Begin(cfg: Kv.Config, maxSeqs: nat, budget: nat, vocab: Vocab, eos: int): Engine {
    Engine(0, map[], Pages.World(Kv.Init(cfg), multiset{}, map[], map[], {}), Start(maxSeqs, budget, vocab, eos))
  }

  // ----- Adding and cancelling -----

  ghost function AddRequest(cfg: Kv.Config, e: Engine, prompt: seq<int>, p: Params, arrival: nat): (c: Called<nat>)
    requires EngineShape(cfg, e) && Unused(e.run, e.counter + 1) && p.maxTokens >= -0x8000_0000
    ensures EngineShape(cfg, c.engine)
  {
    var id := e.counter + 1;
    var r := Kv.Register(cfg, e.kv.cache, id, prompt);
    var e1 := e.(counter := id, kv := Pages.Step(cfg, e.kv, Pages.DoRegister(id, prompt)));
    if r.Throw? then Raised(r.error, e1)
    else
      var submit := Submit(id, prompt, p.maxTokens, p.priority, arrival);
      DoOk(e.run, submit);
      Done(id, e1.(run := Do(e.run, submit), active := e.active[id := p]))
  }

  ghost function CancelCall(cfg: Kv.Config, e: Engine, id: nat): (e': Engine)
    requires EngineShape(cfg, e)
    ensures EngineShape(cfg, e')
  {
    DoOk(e.run, CancelOne(id));
    Drop1(cfg, e.(run := Do(e.run, CancelOne(id))), id)
  }

  /** Unregisters a sequence and forgets its request. */
  ghost function Drop1(cfg: Kv.Config, e: Engine, id: nat): (e': Engine)
    requires EngineShape(cfg, e)
    ensures EngineShape(cfg, e') && e'.run == e.run
  {
    e.(kv := Pages.Step(cfg, e.kv, Pages.DoUnregister(id)), active := e.active - {id})
  }

  // ----- One step -----

  /** The runner's verdict, or a stop token of the request. */
  predicate IsFinal(active: map<nat, Params>, ev: Event) {
    ev.isFinal || (ev.id in active && ev.token in active[ev.id].stops)
  }

  function Output(active: map<nat, Params>, ev: Event): Event {
    Event(ev.id, ev.token, IsFinal(active, ev))
  }

  datatype Absorbed = Absorbed(error: Option<Kv.KvError>, engine: Engine, outputs: seq<Event>)

  ghost function AbsorbOne(cfg: Kv.Config, a: Absorbed, ev: Event): (a': Absorbed)
    requires EngineShape(cfg, a.engine)
    ensures EngineShape(cfg, a'.engine)
  {
    var e := a.engine;
    if a.error.Some? then a
    else if IsFinal(e.active, ev) then a.(outputs := a.outputs + [Output(e.active, ev)])
    else
      var r := Kv.Append(cfg, e.kv.cache, ev.id, 1);
      var e1 := e.(kv := Pages.Step(cfg, e.kv, Pages.DoAppend(ev.id, 1)));
      if r.Throw? then Absorbed(Some(r.error), e1, a.outputs)
      else Absorbed(None, e1, a.outputs + [Output(e.active, ev)])
  }

  /** The loop over the events popped from the stream buffer. */
  ghost function Absorb(cfg: Kv.Config, e: Engine, events: seq<Event>): (a: Absorbed)
    requires EngineShape(cfg, e)
    ensures EngineShape(cfg, a.engine)
  {
    if events == [] then Absorbed(None, e, [])
    else AbsorbOne(cfg, Absorb(cfg, e, events[..|events| - 1]), events[|events| - 1])
  }

  ghost function DropAll(cfg: Kv.Config, e: Engine, ids: seq<nat>): (e': Engine)
    requires EngineShape(cfg, e)
    ensures EngineShape(cfg, e') && e'.run == e.run
  {
    if ids == [] then e else Drop1(cfg, DropAll(cfg, e, ids[..|ids| - 1]), ids[|ids| - 1])
  }

  ghost function CleanUp(cfg: Kv.Config, e: Engine, finished: seq<nat>): (e': Engine)
    requires EngineShape(cfg, e)
    ensures EngineShape(cfg, e')
  {
    if finished == [] then e
    else
      DoOk(e.run, FinishMany(finished));
      DropAll(cfg, e.(run := Do(e.run, FinishMany(finished))), finished)
  }

  /** The runner's step, with the stream buffer emptied afterwards. */
  ghost function Forward(e: Engine): (r: (World, seq<Event>))
    requires RunOk(e.run)
    ensures RunOk(r.0)
  {
    DoOk(e.run, StepOnce([]));
    var run := Do(e.run, StepOnce([]));
    DoOk(run, PopAll);
    (Do(run, PopAll), run.r.queue)
  }

  ghost function StepCall(cfg: Kv.Config, e: Engine): (c: Called<seq<Event>>)
    requires EngineShape(cfg, e)
    ensures EngineShape(cfg, c.engine)
  {
    var (run, events) := Forward(e);
    var a := Absorb(cfg, e.(run := run), events);
    if a.error.Some? then Raised(a.error.value, a.engine)
    else Done(a.outputs, CleanUp(cfg, a.engine, FinalIds(a.outputs)))
  }
}
