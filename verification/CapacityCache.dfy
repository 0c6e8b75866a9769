/** resolveCapacity and its per-instance-type cache. */
module CapacityCache {
  import opened Objects

  datatype Specs = Specs(vcpu: int, memMiB: int)

  const MAX_PODS := 110

  /** A corev1.ResourceList: a reference, so a returned list could alias a cached one. */
  class ResourceList {
    var quantities: map<string, int>

    constructor (quantities: map<string, int>)
      ensures this.quantities == quantities
    {
      this.quantities := quantities;
    }
  }

  function Base(s: Specs): map<string, int> {
    map["cpu" := s.vcpu, "memory" := s.memMiB * 1024 * 1024]
  }

  /** The capacity computed without any cache; `diskSize` is 0 when no system disk is given. */
  function Uncached(s: Specs, diskSize: int): map<string, int> {
    var pods := Base(s)["pods" := MAX_PODS];
    if diskSize > 0 then pods["ephemeral-storage" := diskSize * 1024 * 1024 * 1024] else pods
  }

  /** In units: vCPUs as they are, memory from MiB to bytes, the pod limit, and the system disk from
      GiB to bytes when one of positive size is given; nothing else. */
  lemma CapacityUnits(s: Specs, diskSize: int)
    ensures var q := Uncached(s, diskSize);
            && q.Keys == {"cpu", "memory", "pods"} + (if diskSize > 0 then {"ephemeral-storage"} else {})
            && q["cpu"] == s.vcpu && q["memory"] == 1048576 * s.memMiB && q["pods"] == 110
            && (diskSize > 0 ==> q["ephemeral-storage"] == 1073741824 * diskSize)
  {
  }

  /** What DescribeInstanceTypes knows, by region and type. */
  type Catalogue = (string, string) -> Option<Specs>

  ghost predicate RegionIndependent(catalogue: Catalogue) {
    forall r, q, t :: catalogue(r, t).Some? && catalogue(q, t).Some? ==> catalogue(r, t) == catalogue(q, t)
  }

  class TemplateReconciler {
    var cache: map<string, ResourceList>
    ghost const catalogue: Catalogue

    /** Every cached list is what the catalogue says of its type, in some region. */
    ghost predicate Valid()
      reads this, cache.Values
    {
      RegionIndependent(catalogue) &&
      forall t :: t in cache ==>
        exists r :: catalogue(r, t).Some? && cache[t].quantities == Base(catalogue(r, t).value)
    }

    constructor (ghost catalogue: Catalogue)
      requires RegionIndependent(catalogue)
      ensures Valid() && cache == map[] && this.catalogue == catalogue
    {
      this.catalogue := catalogue;
      cache := map[];
    }

    /** `answer` is what the cloud says now, None for any failure. A resolved capacity equals the
        uncached one, in a list of its own; no cached list changes. */
    method ResolveCapacity(region: string, instanceType: string, diskSize: int, answer: Option<Specs>)
      returns (out: Option<ResourceList>)
      requires Valid()
      requires answer.Some? ==> answer == catalogue(region, instanceType)
      modifies this`cache
      ensures Valid()
      ensures out.Some? <==> instanceType in old(cache) || answer.Some?
      ensures out.Some? ==> fresh(out.value) && out.value !in cache.Values
      ensures out.Some? ==> exists r :: catalogue(r, instanceType).Some? &&
                                        out.value.quantities == Uncached(catalogue(r, instanceType).value, diskSize)
      ensures out.Some? && catalogue(region, instanceType).Some? ==>
                out.value.quantities == Uncached(catalogue(region, instanceType).value, diskSize)
      ensures old(cache.Keys) <= cache.Keys <= old(cache.Keys) + {instanceType}
      ensures forall t :: t in old(cache) ==> cache[t] == old(cache[t])
    {
      var base: ResourceList;
      if instanceType in cache {
        base := cache[instanceType];
      } else {
        if answer.None? {
          return None;
        }
        base := new ResourceList(map["cpu" := answer.value.vcpu, "memory" := answer.value.memMiB * 1024 * 1024]);
        cache := cache[instanceType := base];
      }
      var copy := new ResourceList(base.quantities);
      copy.quantities := copy.quantities["pods" := MAX_PODS];
      if diskSize > 0 {
        copy.quantities := copy.quantities["ephemeral-storage" := diskSize * 1024 * 1024 * 1024];
      }
      out := Some(copy);
    }
  }

  // ---------------------------------------------------------------- overlapping calls

  /** One call, cut at its two lock regions and its cloud call. */
  datatype Stage = Begun | Missed | Fetched(specs: Specs) | Resolved(quantities: map<string, int>) | Errored

  datatype CallState = CallState(region: string, instanceType: string, diskSize: int, stage: Stage)

  datatype Shared = Shared(cache: map<string, Specs>, calls: map<nat, CallState>)

  datatype Move = Enter(i: nat, call: CallState) | Look(i: nat) | Fetch(i: nat, reached: bool) | Store(i: nat)

  ghost predicate CanMove(s: Shared, m: Move) {
    match m
    case Enter(i, call) => i !in s.calls && call.stage == Begun
    case Look(i) => i in s.calls && s.calls[i].stage == Begun
    case Fetch(i, _) => i in s.calls && s.calls[i].stage == Missed
    case Store(i) => i in s.calls && s.calls[i].stage.Fetched?
  }

  ghost function Moved(catalogue: Catalogue, s: Shared, m: Move): Shared
    requires CanMove(s, m)
  {
    match m
    case Enter(i, call) => s.(calls := s.calls[i := call])
    case Look(i) =>
      var c := s.calls[i];
      var stage := if c.instanceType in s.cache then Resolved(Uncached(s.cache[c.instanceType], c.diskSize))
          else Missed;
      s.(calls := s.calls[i := c.(stage := stage)])
    case Fetch(i, reached) =>
      var c := s.calls[i];
      var answer := if reached then catalogue(c.region, c.instanceType) else None;
      s.(calls := s.calls[i := c.(stage := if answer.Some? then Fetched(answer.value) else Errored)])
    case Store(i) =>
      var c := s.calls[i];
      Shared(s.cache[c.instanceType := c.stage.specs],
             s.calls[i := c.(stage := Resolved(Uncached(c.stage.specs, c.diskSize)))])
  }

  ghost predicate Interleaving(catalogue: Catalogue, s: Shared, moves: seq<Move>)
    decreases |moves|
  {
    moves == [] || (CanMove(s, moves[0]) && Interleaving(catalogue, Moved(catalogue, s, moves[0]), moves[1..]))
  }

  ghost function After(catalogue: Catalogue, s: Shared, moves: seq<Move>): Shared
    requires Interleaving(catalogue, s, moves)
    decreases |moves|
  {
    if moves == [] then s else After(catalogue, Moved(catalogue, s, moves[0]), moves[1..])
  }

  ghost predicate Known(catalogue: Catalogue, t: string, specs: Specs) { exists r :: catalogue(r, t) == Some(specs) }

  ghost predicate Truthful(catalogue: Catalogue, s: Shared) {
    && (forall t :: t in s.cache ==> Known(catalogue, t, s.cache[t]))
    && forall i :: i in s.calls ==>
         var c := s.calls[i];
         && (c.stage.Fetched? ==> Known(catalogue, c.instanceType, c.stage.specs))
         && (c.stage.Resolved? ==>
               exists specs :: Known(catalogue, c.instanceType, specs)
                   && c.stage.quantities == Uncached(specs, c.diskSize))
  }

  lemma TruthfulMove(catalogue: Catalogue, s: Shared, m: Move)
    requires Truthful(catalogue, s) && CanMove(s, m)
    ensures Truthful(catalogue, Moved(catalogue, s, m))
  {
    hide Uncached;
    if m.Fetch? {
      var c := s.calls[m.i];
      assert forall specs ::
          catalogue(c.region, c.instanceType) == Some(specs) ==> Known(catalogue, c.instanceType, specs);
    }
  }

  lemma {:induction false} TruthfulAfter(catalogue: Catalogue, s: Shared, moves: seq<Move>)
    requires Truthful(catalogue, s) && Interleaving(catalogue, s, moves)
    ensures Truthful(catalogue, After(catalogue, s, moves))
    decreases |moves|
  {
    if moves != [] {
      TruthfulMove(catalogue, s, moves[0]);
      TruthfulAfter(catalogue, Moved(catalogue, s, moves[0]), moves[1..]);
    }
  }

  /** However calls overlap around the cache, a resolved call returns what its own region's
      uncached computation would, even when another call filled the entry meanwhile. */
  lemma CacheRefinesLookup(catalogue: Catalogue, moves: seq<Move>, i: nat)
    requires RegionIndependent(catalogue)
    requires Interleaving(catalogue, Shared(map[], map[]), moves)
    requires var s := After(catalogue, Shared(map[], map[]), moves);
             i in s.calls && s.calls[i].stage.Resolved? && catalogue(s.calls[i].region, s.calls[i].instanceType).Some?
    ensures var c := After(catalogue, Shared(map[], map[]), moves).calls[i];
            c.stage.quantities == Uncached(catalogue(c.region, c.instanceType).value, c.diskSize)
  {
    hide Uncached;
    TruthfulAfter(catalogue, Shared(map[], map[]), moves);
    var c := After(catalogue, Shared(map[], map[]), moves).calls[i];
    var specs :| Known(catalogue, c.instanceType, specs) && c.stage.quantities == Uncached(specs, c.diskSize);
    var r :| catalogue(r, c.instanceType) == Some(specs);
    assert catalogue(r, c.instanceType) == catalogue(c.region, c.instanceType);
  }

  /** A resolved call returned what its own region's uncached computation would. */
  ghost predicate AsUncached(catalogue: Catalogue, s: Shared, i: nat) {
    i in s.calls && s.calls[i].stage.Resolved? && catalogue(s.calls[i].region, s.calls[i].instanceType).Some? ==>
      s.calls[i].stage.quantities ==
          Uncached(catalogue(s.calls[i].region, s.calls[i].instanceType).value, s.calls[i].diskSize)
  }

  /** Two regions that differ over a type: whichever asks first answers for the other. */
  lemma FirstRegionWins(catalogue: Catalogue, r: string, q: string, t: string) returns (moves: seq<Move>)
    requires catalogue(r, t).Some? && catalogue(q, t).Some? && catalogue(r, t) != catalogue(q, t)
    ensures Interleaving(catalogue, Shared(map[], map[]), moves)
    ensures !AsUncached(catalogue, After(catalogue, Shared(map[], map[]), moves), 1)
  {
    hide Uncached;
    var (specs, other) := (catalogue(r, t).value, catalogue(q, t).value);
    var s: Shared := Shared(map[], map[]);
    moves := [];
    moves, s := Grow(catalogue, moves, s, Enter(0, CallState(r, t, 0, Begun)));
    moves, s := Grow(catalogue, moves, s, Look(0));
    moves, s := Grow(catalogue, moves, s, Fetch(0, true));
    moves, s := Grow(catalogue, moves, s, Store(0));
    moves, s := Grow(catalogue, moves, s, Enter(1, CallState(q, t, 0, Begun)));
    moves, s := Grow(catalogue, moves, s, Look(1));
    assert s.calls[1] == CallState(q, t, 0, Resolved(Uncached(specs, 0)));
    UncachedInjective(specs, other);
  }

  lemma UncachedInjective(a: Specs, b: Specs)
    requires a != b
    ensures Uncached(a, 0) != Uncached(b, 0)
  {
    assert Uncached(a, 0)["cpu"] == a.vcpu && Uncached(b, 0)["cpu"] == b.vcpu;
    assert Uncached(a, 0)["memory"] == a.memMiB * 1024 * 1024 && Uncached(b, 0)["memory"] == b.memMiB * 1024 * 1024;
  }

  ghost predicate Ends(catalogue: Catalogue, s: Shared, moves: seq<Move>, end: Shared) {
    Interleaving(catalogue, s, moves) && After(catalogue, s, moves) == end
  }

  lemma {:induction false} Append(catalogue: Catalogue, s: Shared, moves: seq<Move>, end: Shared, m: Move)
    requires Ends(catalogue, s, moves, end) && CanMove(end, m)
    ensures Ends(catalogue, s, moves + [m], Moved(catalogue, end, m))
    decreases |moves|
  {
    hide CanMove, Moved;
    if moves == [] {
      assert [m][1..] == [] && moves + [m] == [m];
      assert Ends(catalogue, Moved(catalogue, s, m), [m][1..], Moved(catalogue, s, m));
      assert Ends(catalogue, s, [m], Moved(catalogue, s, m));
    } else {
      Append(catalogue, Moved(catalogue, s, moves[0]), moves[1..], end, m);
      assert (moves + [m])[1..] == moves[1..] + [m];
    }
  }

  lemma Grow(catalogue: Catalogue, moves: seq<Move>, s: Shared, m: Move) returns (more: seq<Move>, t: Shared)
    requires Ends(catalogue, Shared(map[], map[]), moves, s) && CanMove(s, m)
    ensures Ends(catalogue, Shared(map[], map[]), more, t) && t == Moved(catalogue, s, m)
  {
    Append(catalogue, Shared(map[], map[]), moves, s, m);
    more, t := moves + [m], Moved(catalogue, s, m);
  }

  /** The cache is transparent, over every interleaving, exactly for region-independent specs. */
  lemma TransparentExactly(catalogue: Catalogue)
    ensures RegionIndependent(catalogue) <==>
              forall moves, i :: Interleaving(catalogue, Shared(map[], map[]), moves) ==>
                AsUncached(catalogue, After(catalogue, Shared(map[], map[]), moves), i)
  {
    if RegionIndependent(catalogue) {
      forall moves, i | Interleaving(catalogue, Shared(map[], map[]), moves)
        ensures AsUncached(catalogue, After(catalogue, Shared(map[], map[]), moves), i)
      {
        var s := After(catalogue, Shared(map[], map[]), moves);
        if i in s.calls && s.calls[i].stage.Resolved? && catalogue(s.calls[i].region, s.calls[i].instanceType).Some? {
          CacheRefinesLookup(catalogue, moves, i);
        }
      }
    } else {
      var r, q, t :| catalogue(r, t).Some? && catalogue(q, t).Some? && catalogue(r, t) != catalogue(q, t);
      var moves := FirstRegionWins(catalogue, r, q, t);
    }
  }
}
