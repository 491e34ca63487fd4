/** `GatewayPool` of regression/t4/gateway.py. */
module Gateways {
  import opened Common

  const DefaultBase := "monkeybot.yaml"

  /** Everything that decides which gateway a scenario runs on. */
  datatype Spec = Spec(base: string, overrides: string, env: seq<(string, string)>, exclusive: bool) {
    predicate IsDefault() {
      base == DefaultBase && overrides == "{}" && env == [] && !exclusive
    }
  }

  /** A generated config file: named after the spec, and after the start as well for an exclusive one. */
  datatype Path = Path(spec: Spec, start: Option<nat>)

  /** A gateway the pool started.  `serial` tells them apart; the source compares identities. */
  datatype Gateway = Gateway(spec: Spec, serial: nat, config: Path)

  /** What a scenario gets: the gateway at the external URL, or one of the pool's. */
  datatype Handle = External(spec: Spec) | Managed(gateway: Gateway)

  /** What the environment does: the base config cannot be overlaid, the launcher fails, or it starts. */
  datatype Launch = NoConfig | StartFails | Starts

  datatype PoolError = StopFailed | ConfigFailed | LaunchFailed

  /** The pool and, as history, the gateways started, the stops attempted and the gateways handed out. */
  datatype Pool = Pool(external: bool, current: Option<Gateway>, starts: nat, files: set<Path>,
                       started: seq<Gateway>, stopped: seq<Gateway>, handed: seq<Handle>)

  function NewPool(external: bool): Pool {
    Pool(external, None, 0, {}, [], [], [])
  }

  // ---------------------------------------------------------------- operations

  function StopCurrent(p: Pool): Pool {
    if p.current.None? then p
    else p.(current := None, files := p.files - {p.current.value.config}, stopped := p.stopped + [p.current.value])
  }

  /** The second half of acquire: write the config and start a gateway. */
  function StartNew(q: Pool, spec: Spec, launch: Launch): (Pool, Result<Handle, PoolError>) {
    var q1 := q.(starts := q.starts + 1);
    var path := Path(spec, if spec.exclusive then Some(q1.starts) else None);
    match launch
    case NoConfig => (q1, Err(ConfigFailed))
    case StartFails => (q1.(files := (q1.files + {path}) - {path}), Err(LaunchFailed))
    case Starts =>
      var g := Gateway(spec, q1.starts, path);
      (q1.(files := q1.files + {path}, current := Some(g), started := q1.started + [g], handed := q1.handed + [Managed(g)]),
       Ok(Managed(g)))
  }

  /** `stopOk` is the launcher's answer to a stop, should one be needed. */
  function Acquire(p: Pool, spec: Spec, stopOk: bool, launch: Launch): (Pool, Result<Handle, PoolError>) {
    if spec.IsDefault() && p.external then
      (p.(handed := p.handed + [External(spec)]), Ok(External(spec)))
    else if p.current.Some? && p.current.value.spec == spec && !spec.exclusive then
      (p.(handed := p.handed + [Managed(p.current.value)]), Ok(Managed(p.current.value)))
    else if p.current.Some? && !stopOk then
      (StopCurrent(p), Err(StopFailed))
    else
      StartNew(StopCurrent(p), spec, launch)
  }

  function Release(p: Pool, h: Handle): Pool {
    if h.Managed? && h.gateway.spec.exclusive && p.current == Some(h.gateway) then StopCurrent(p) else p
  }

  function Close(p: Pool): Pool {
    StopCurrent(p)
  }

  class GatewayPool {
    const external: bool
    var current: Option<Gateway>
    var starts: nat
    var files: set<Path>
    ghost var started: seq<Gateway>
    ghost var stopped: seq<Gateway>
    ghost var handed: seq<Handle>

    ghost function State(): Pool reads this {
      Pool(external, current, starts, files, started, stopped, handed)
    }

    ghost predicate Valid() reads this { Safe(State()) }

    constructor (external: bool)
      ensures Valid() && State() == NewPool(external)
    {
      this.external := external;
      current, starts, files := None, 0, {};
      started, stopped, handed := [], [], [];
    }

    method DoStopCurrent(stopOk: bool) returns (ok: bool)
      modifies this
      ensures State() == StopCurrent(old(State())) && (ok <==> old(current).None? || stopOk)
    {
      var gateway := current;
      current := None;
      if gateway.None? {
        return true;
      }
      stopped := stopped + [gateway.value];
      files := files - {gateway.value.config};
      return stopOk;
    }

    method DoStartNew(spec: Spec, launch: Launch) returns (r: Result<Handle, PoolError>)
      modifies this
      ensures (State(), r) == StartNew(old(State()), spec, launch)
    {
      starts := starts + 1;
      var path := Path(spec, if spec.exclusive then Some(starts) else None);
      if launch.NoConfig? {
        return Err(ConfigFailed);
      }
      files := files + {path};
      if launch.StartFails? {
        files := files - {path};
        return Err(LaunchFailed);
      }
      var gateway := Gateway(spec, starts, path);
      current := Some(gateway);
      started, handed := started + [gateway], handed + [Managed(gateway)];
      return Ok(Managed(gateway));
    }

    method DoAcquire(spec: Spec, stopOk: bool, launch: Launch) returns (r: Result<Handle, PoolError>)
      requires Valid()
      modifies this
      ensures Valid() && (State(), r) == Acquire(old(State()), spec, stopOk, launch)
    {
      AcquireSafe(State(), spec, stopOk, launch);
      if spec.IsDefault() && external {
        handed := handed + [External(spec)];
        return Ok(External(spec));
      }
      if current.Some? && current.value.spec == spec && !spec.exclusive {
        handed := handed + [Managed(current.value)];
        return Ok(Managed(current.value));
      }
      var ok := DoStopCurrent(stopOk);
      if !ok {
        return Err(StopFailed);
      }
      r := DoStartNew(spec, launch);
    }

    method DoRelease(handle: Handle, stopOk: bool) returns (ok: bool)
      requires Valid()
      modifies this
      ensures Valid() && State() == Release(old(State()), handle)
      ensures ok <==> State() == old(State()) || stopOk
    {
      StopSafe(State());
      ok := true;
      if handle.Managed? && handle.gateway.spec.exclusive && current == Some(handle.gateway) {
        ok := DoStopCurrent(stopOk);
      }
    }

    /** After close nothing runs, no generated file is left, and every gateway that started has
        had exactly one stop attempt, in the order of the starts. */
    method DoClose(stopOk: bool) returns (ok: bool)
      requires Valid()
      modifies this
      ensures Valid() && State() == Close(old(State()))
      ensures current.None? && files == {} && stopped == started && started == old(started)
      ensures ok <==> stopped == old(stopped) || stopOk
    {
      StopSafe(State());
      ok := DoStopCurrent(stopOk);
    }
  }

  // ---------------------------------------------------------------- safety over all runs

  /** Every start except the current gateway's has had exactly one stop attempt; a generated file
      exists exactly for the current gateway; an exclusive gateway was handed out at most once. */
  ghost predicate Safe(p: Pool) {
    && p.started == p.stopped + (if p.current.Some? then [p.current.value] else [])
    && p.files == (if p.current.Some? then {p.current.value.config} else {})
    && (forall g :: g in p.started ==> g.serial <= p.starts)
    && (forall g :: g in p.started ==> g.config == Path(g.spec, if g.spec.exclusive then Some(g.serial) else None))
    && Distinct(p.started)
    && (forall h :: h in p.handed && h.Managed? ==> h.gateway in p.started)
    && HandedOnce(p.handed)
    && (forall h :: h in p.handed && h.External? ==> h.spec.IsDefault() && p.external)
  }

  /** A scenario that asks for nothing special: the default base config, no overrides, no environment,
      and no gateway of its own. */
  predicate Ordinary(spec: Spec) {
    spec == Spec("monkeybot.yaml", "{}", [], false)
  }

  /** What acquire answers and does, case by case.  The external gateway goes to ordinary scenarios only;
      the current gateway is used again, without a start or a stop, by scenarios of the same spec that
      share; for all others the current one is stopped, and only if that succeeds is a start made, of
      which every failure is reported and leaves nothing running and no file. */
  lemma {:induction false} AcquireMeans(p: Pool, spec: Spec, stopOk: bool, launch: Launch)
    requires Safe(p)
    ensures var (q, r), outside := Acquire(p, spec, stopOk, launch), p.external && Ordinary(spec);
      var again := !outside && p.current.Some? && p.current.value.spec == spec && !spec.exclusive;
      && (r == Ok(External(spec)) <==> outside)
      && (outside || again ==> q == p.(handed := q.handed) && r.Ok? && q.handed == p.handed + [r.value])
      && (again ==> r == Ok(Managed(p.current.value)))
      && (!outside && !again ==>
        && q.stopped == p.stopped + (if p.current.Some? then [p.current.value] else [])
        && (r == Err(StopFailed) <==> p.current.Some? && !stopOk)
        && q.starts == p.starts + (if r == Err(StopFailed) then 0 else 1)
        && (r == Err(ConfigFailed) <==> r != Err(StopFailed) && launch.NoConfig?)
        && (r == Err(LaunchFailed) <==> r != Err(StopFailed) && launch.StartFails?)
        && (r.Err? ==> q.current.None? && q.files == {} && q.started == p.started && q.handed == p.handed)
        && (r.Ok? ==> r.value.Managed? && q.current == Some(r.value.gateway) && r.value.gateway.spec == spec
                      && q.started == p.started + [r.value.gateway] && q.handed == p.handed + [r.value]
                      && r.value.gateway !in p.started))
  {
    if p.current.Some? {
      assert p.started[|p.started| - 1] == p.current.value;
    }
    assert StopCurrent(p).files == {};
    AcquireSafe(p, spec, stopOk, launch);
  }

  ghost predicate Distinct(gs: seq<Gateway>) {
    forall i, j :: 0 <= i < j < |gs| ==> gs[i] != gs[j]
  }

  /** No exclusive gateway appears twice. */
  ghost predicate HandedOnce(hs: seq<Handle>) {
    forall i, j :: 0 <= i < j < |hs| && hs[i] == hs[j] && hs[i].Managed? ==> !hs[i].gateway.spec.exclusive
  }

  lemma {:induction false} StopSafe(p: Pool)
    requires Safe(p)
    ensures Safe(StopCurrent(p))
  {
  }

  /** Handing out a shared gateway once more. */
  lemma {:induction false} HandSafe(p: Pool, h: Handle)
    requires Safe(p)
    requires if h.Managed? then !h.gateway.spec.exclusive && h.gateway in p.started else h.spec.IsDefault() && p.external
    ensures Safe(p.(handed := p.handed + [h]))
  {
  }

  /** A gateway that has started, when none was current. */
  lemma {:induction false} StartedSafe(p: Pool, g: Gateway)
    requires Safe(p) && p.current.None? && g.serial == p.starts + 1
    requires g.config == Path(g.spec, if g.spec.exclusive then Some(g.serial) else None)
    ensures Safe(p.(starts := p.starts + 1, files := p.files + {g.config}, current := Some(g),
                    started := p.started + [g], handed := p.handed + [Managed(g)]))
  {
    assert g !in p.started && Managed(g) !in p.handed;
  }

  lemma {:induction false} CountedSafe(p: Pool)
    requires Safe(p)
    ensures Safe(p.(starts := p.starts + 1))
  {
  }

  /** Starting a gateway when none is current. */
  lemma {:induction false} StartSafe(p: Pool, spec: Spec, launch: Launch)
    requires Safe(p) && p.current.None?
    ensures Safe(StartNew(p, spec, launch).0)
  {
    var g := Gateway(spec, p.starts + 1, Path(spec, if spec.exclusive then Some(p.starts + 1) else None));
    if launch.Starts? {
      StartedSafe(p, g);
    } else {
      assert (p.files + {g.config}) - {g.config} == p.files;
      CountedSafe(p);
    }
  }

  lemma {:induction false} AcquireSafe(p: Pool, spec: Spec, stopOk: bool, launch: Launch)
    requires Safe(p)
    ensures Safe(Acquire(p, spec, stopOk, launch).0)
  {
    if spec.IsDefault() && p.external {
      HandSafe(p, External(spec));
    } else if p.current.Some? && p.current.value.spec == spec && !spec.exclusive {
      assert p.started[|p.started| - 1] == p.current.value;
      HandSafe(p, Managed(p.current.value));
    } else {
      StopSafe(p);
      StartSafe(StopCurrent(p), spec, launch);
    }
  }

  datatype Op = DoAcquire(spec: Spec, stopOk: bool, launch: Launch) | DoRelease(handle: Handle) | DoClose

  function Apply(p: Pool, op: Op): Pool {
    match op
    case DoAcquire(spec, stopOk, launch) => Acquire(p, spec, stopOk, launch).0
    case DoRelease(handle) => Release(p, handle)
    case DoClose => Close(p)
  }

  function ApplyAll(p: Pool, ops: seq<Op>): Pool
    decreases |ops|
  {
    if ops == [] then p else ApplyAll(Apply(p, ops[0]), ops[1..])
  }

  lemma {:induction false} RunSafe(p: Pool, ops: seq<Op>)
    requires Safe(p)
    ensures Safe(ApplyAll(p, ops))
    decreases |ops|
  {
    if ops != [] {
      if ops[0].DoAcquire? {
        AcquireSafe(p, ops[0].spec, ops[0].stopOk, ops[0].launch);
      } else {
        StopSafe(p);
      }
      RunSafe(Apply(p, ops[0]), ops[1..]);
    }
  }

  /** Gateways share a generated file only if they share a spec that is not exclusive. */
  lemma {:induction false} SharedConfigs(p: Pool)
    requires Safe(p)
    ensures forall i, j :: 0 <= i < j < |p.started| && p.started[i].config == p.started[j].config ==>
      p.started[i].spec == p.started[j].spec && !p.started[i].spec.exclusive
  {
    forall i, j | 0 <= i < j < |p.started| && p.started[i].config == p.started[j].config
      ensures p.started[i].spec == p.started[j].spec && !p.started[i].spec.exclusive
    {
      assert p.started[i] in p.started && p.started[j] in p.started;
    }
  }

  /** Over every sequence of operations in which any start or stop may fail: at most the current
      gateway runs unstopped and it alone has a generated file, no exclusive gateway is handed out
      twice or shares its generated file, and closing leaves every started gateway with exactly one
      stop attempt. */
  lemma {:induction false} PoolIsSafe(external: bool, ops: seq<Op>)
    ensures var p := ApplyAll(NewPool(external), ops);
      && p.stopped <= p.started && |p.started| <= |p.stopped| + 1
      && p.files == (if p.current.Some? then {p.current.value.config} else {})
      && HandedOnce(p.handed) && Distinct(p.started)
      && (forall i, j :: 0 <= i < j < |p.started| && p.started[i].config == p.started[j].config ==>
            p.started[i].spec == p.started[j].spec && !p.started[i].spec.exclusive)
      && Close(p).started == Close(p).stopped && Close(p).files == {}
  {
    RunSafe(NewPool(external), ops);
    SharedConfigs(ApplyAll(NewPool(external), ops));
    StopSafe(ApplyAll(NewPool(external), ops));
  }
}
