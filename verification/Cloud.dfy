/** The contract of the ECS API as the client wrapper uses it. */
module Cloud {
  import opened Objects
  import opened ProviderIDs
  import Retry

  /** `state` is None once the record has vanished. Identifiers are never reused, so the
      fleet also records every instance ever created. */
  datatype Instance = Instance(tag: string, region: string, token: string, state: Option<InstanceState>)

  type Fleet = map<string, Instance>

  /** What the environment promises:
      tokens - a second launch with a used client token returns the first instance;
      current - the tag listing is complete, and it and instance descriptions are current;
      serial - reconciles of one object do not overlap;
      cleanThrottle - a throttled launch created nothing. */
  datatype Env = Env(tokens: bool, current: bool, serial: bool, cleanThrottle: bool)

  datatype Call =
    | Describe(region: string, id: string)
    | Find(region: string, tag: string)
    | Launch(region: string, token: string, tag: string)
    | Modify(region: string, id: string, endpoint: string, tokens: string, hopLimit: int)
    | Stop(region: string, id: string)
    | Release(region: string, id: string)

  datatype Response =
    | Failed(error: Retry.Error)
    | Absent
    | Present(id: string, state: InstanceState)
    | Found(id: string)
    | Launched(id: string)
    | Done

  /** How one call turns out: what the caller sees (`ok`, `error`), whether it took effect in the
      cloud even though it failed (`effect`), and what the cloud chose or reported (`id`, `to`). */
  datatype Outcome = Outcome(ok: bool, effect: bool, error: Retry.Error, id: string, to: Option<InstanceState>)

  predicate Live(i: Instance) { i.state.Some? && i.state.value != Deleted }

  predicate Carries(i: Instance, region: string, tag: string) { i.region == region && i.tag == tag }

  /** Nothing comes back: a deleted instance can only vanish. */
  predicate MoveOk(from: Option<InstanceState>, to: Option<InstanceState>) {
    && (from.None? ==> to.None?)
    && (from == Some(Deleted) ==> to.None? || to == Some(Deleted))
  }

  predicate NewID(fleet: Fleet, id: string) { id !in fleet && id != "" && SeparatorFree(id) }

  predicate TokenUsed(fleet: Fleet, token: string) { exists id :: id in fleet && fleet[id].token == token }

  /** The state of an instance as its region sees it; None when there is no such record. */
  function StateOf(fleet: Fleet, region: string, id: string): Option<InstanceState> {
    if id in fleet && fleet[id].region == region then fleet[id].state else None
  }

  /** The outcomes the environment allows for a call. */
  predicate Allowed(env: Env, fleet: Fleet, call: Call, o: Outcome) {
    match call
    case Describe(region, id) =>
      o.ok ==>
        && (o.to.Some? ==> id in fleet && fleet[id].region == region)
        && (env.current ==> o.to == StateOf(fleet, region, id))
    case Find(region, tag) =>
      o.ok ==>
        if o.id == "" then
          env.current ==> forall id :: id in fleet ==> !(Carries(fleet[id], region, tag) && Live(fleet[id]))
        else
          o.id in fleet && Carries(fleet[o.id], region, tag) && (env.current ==> Live(fleet[o.id]))
    case Launch(region, token, tag) =>
      o.ok || o.effect ==>
        if env.tokens && TokenUsed(fleet, token) then o.id in fleet && fleet[o.id].token == token
        else NewID(fleet, o.id)
    case Stop(region, id) => id in fleet ==> MoveOk(fleet[id].state, o.to)
    case Release(region, id) => id in fleet ==> MoveOk(fleet[id].state, o.to)
    case _ => true
  }

  function MoveTo(fleet: Fleet, region: string, id: string, o: Outcome): Fleet {
    if (o.ok || o.effect) && id in fleet && fleet[id].region == region
    then fleet[id := fleet[id].(state := o.to)]
    else fleet
  }

  function Perform(fleet: Fleet, call: Call, o: Outcome): (Fleet, Response) {
    match call
    case Describe(region, id) =>
      (fleet,
       if !o.ok then Failed(o.error) else if o.to.Some? then Present(id, o.to.value) else Absent)
    case Find(region, tag) => (fleet, if o.ok then Found(o.id) else Failed(o.error))
    case Launch(region, token, tag) =>
      (if (o.ok || o.effect) && o.id !in fleet then fleet[o.id := Instance(tag, region, token, Some(Pending))]
          else fleet,
       if o.ok then Launched(o.id) else Failed(o.error))
    case Modify(_, _, _, _, _) => (fleet, if o.ok then Done else Failed(o.error))
    case Stop(region, id) => (MoveTo(fleet, region, id, o), if o.ok then Done else Failed(o.error))
    case Release(region, id) => (MoveTo(fleet, region, id, o), if o.ok then Done else Failed(o.error))
  }
}
