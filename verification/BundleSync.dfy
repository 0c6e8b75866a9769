/** hack/verify-bundle-sync.py: the normalisation that erases what may legitimately differ between
    the bundle and the canonical manifest, and the check that compares the rest. */
module BundleSync {
  import opened Objects
  import opened BundleDiff

  // ---------------------------------------------------------------- normalisation

  function Get(t: Tree, k: string): Option<Tree> {
    if t.Dict? && k in t.entries then Some(t.entries[k]) else None
  }

  predicate Named(t: Tree, name: string) { Get(t, "name") == Some(Leaf(Str(name))) }

  /** The elements met when iterating a value. A non-empty string or dictionary yields strings,
      and every use the script makes of an element raises on a string: None stands for raising. */
  function Elements(t: Tree): Option<seq<Tree>> {
    match t
    case List(items) => Some(items)
    case Dict(entries) => if entries == map[] then Some([]) else None
    case Leaf(v) => if v == Str("") then Some([]) else None
  }

  /** The elements whose name is not `cert`; an element that is not a dictionary raises. */
  function DropCert(items: seq<Tree>): Option<seq<Tree>> {
    if items == [] then Some([])
    else if !items[0].Dict? || DropCert(items[1..]).None? then None
    else
      var rest := DropCert(items[1..]).value;
      Some(if Named(items[0], "cert") then rest else [items[0]] + rest)
  }

  /** What stays of the list under a key, which may be missing. */
  function Remaining(t: Tree, k: string): Option<seq<Tree>> {
    if !t.Dict? then None
    else if k !in t.entries then Some([])
    else if Elements(t.entries[k]).None? then None
    else DropCert(Elements(t.entries[k]).value)
  }

  /** The dictionary with the key set to what stays, or without the key when nothing does. */
  function Replace(t: Tree, k: string, kept: seq<Tree>): (r: Tree)
    requires t.Dict?
    ensures r.Dict?
  {
    Dict(if kept == [] then t.entries - {k} else t.entries[k := List(kept)])
  }

  function Put(t: Tree, k: string, v: Tree): Tree
    requires t.Dict?
  {
    Dict(t.entries[k := v])
  }

  /** The position of the container named `manager`: a container before it without a name raises. */
  function ManagerAt(items: seq<Tree>): (r: Option<nat>)
    ensures r.Some? ==> r.value < |items| && Named(items[r.value], "manager")
    ensures r.Some? ==> forall j :: 0 <= j < r.value ==> items[j].Dict? && !Named(items[j], "manager")
  {
    if items == [] || Get(items[0], "name").None? then None
    else if Named(items[0], "manager") then Some(0)
    else if ManagerAt(items[1..]).None? then None
    else Some(ManagerAt(items[1..]).value + 1)
  }

  /** The places of a Deployment spec that normalisation touches. */
  datatype Parts = Parts(
    template: Tree, pod: Tree, volumes: seq<Tree>,
    containers: seq<Tree>, at: nat, mounts: seq<Tree>)

  /** None is a run of the script that ends in an exception. */
  function Open(spec: Tree): (r: Option<Parts>)
    ensures r.Some? ==>
      && spec.Dict? && r.value.template.Dict? && r.value.pod.Dict?
      && r.value.at < |r.value.containers| && r.value.containers[r.value.at].Dict?
  {
    if Get(spec, "template").None? then None
    else
      var template := spec.entries["template"];
      if Get(template, "spec").None? then None
      else
        var pod := template.entries["spec"];
        if Remaining(pod, "volumes").None? || Get(pod, "containers").None? || !pod.entries["containers"].List? then None
        else
          var containers := pod.entries["containers"].items;
          if ManagerAt(containers).None? then None
          else
            var at := ManagerAt(containers).value;
            if Remaining(containers[at], "volumeMounts").None? then None
            else
              Some(Parts(template, pod, Remaining(pod, "volumes").value, containers, at,
                         Remaining(containers[at], "volumeMounts").value))
  }

  function Slim(container: Tree, mounts: seq<Tree>): Tree
    requires container.Dict?
  {
    Dict(Replace(container, "volumeMounts", mounts).entries - {"image"})
  }

  function Rebuild(spec: Tree, p: Parts): Tree
    requires spec.Dict? && p.template.Dict? && p.pod.Dict? && p.at < |p.containers| && p.containers[p.at].Dict?
  {
    Put(spec, "template", Put(p.template, "spec",
        Put(Replace(p.pod, "volumes", p.volumes), "containers",
            List(p.containers[p.at := Slim(p.containers[p.at], p.mounts)]))))
  }

  function Normalize(spec: Tree): Option<Tree> {
    if Open(spec).None? then None else Some(Rebuild(spec, Open(spec).value))
  }

  lemma {:induction false} DropCertTwice(items: seq<Tree>)
    requires DropCert(items).Some?
    ensures DropCert(DropCert(items).value) == DropCert(items)
  {
    if items != [] {
      DropCertTwice(items[1..]);
      var rest := DropCert(items[1..]).value;
      assert ([items[0]] + rest)[1..] == rest;
    }
  }

  lemma {:induction false} ManagerStays(items: seq<Tree>, c: Tree)
    requires ManagerAt(items).Some? && Named(c, "manager")
    ensures ManagerAt(items[ManagerAt(items).value := c]) == ManagerAt(items)
  {
    var i := ManagerAt(items).value;
    if i > 0 {
      ManagerStays(items[1..], c);
      assert items[i := c][1..] == items[1..][i - 1 := c];
    }
  }

  lemma ReplaceTwice(t: Tree, k: string)
    requires Remaining(t, k).Some?
    ensures var kept := Remaining(t, k).value;
            Remaining(Replace(t, k, kept), k) == Some(kept)
                && Replace(Replace(t, k, kept), k, kept) == Replace(t, k, kept)
  {
    var kept := Remaining(t, k).value;
    if k in t.entries {
      DropCertTwice(Elements(t.entries[k]).value);
    }
    if kept == [] {
      assert (t.entries - {k}) - {k} == t.entries - {k};
    }
  }

  /** What is left of a container holds the same mounts, and slimming it again changes nothing. */
  lemma SlimTwice(m: Tree)
    requires Remaining(m, "volumeMounts").Some?
    ensures var mounts := Remaining(m, "volumeMounts").value;
            var slim := Slim(m, mounts);
            && Remaining(slim, "volumeMounts") == Some(mounts) && Slim(slim, mounts) == slim
            && Get(slim, "name") == Get(m, "name")
  {
    var mounts := Remaining(m, "volumeMounts").value;
    var slim := Slim(m, mounts);
    ReplaceTwice(m, "volumeMounts");
    assert Slim(slim, mounts).entries == slim.entries;
  }

  lemma PodTwice(pod: Tree, cs: seq<Tree>)
    requires Remaining(pod, "volumes").Some?
    ensures var kept := Remaining(pod, "volumes").value;
            var again := Put(Replace(pod, "volumes", kept), "containers", List(cs));
            Remaining(again, "volumes") == Some(kept)
                && Put(Replace(again, "volumes", kept), "containers", List(cs)) == again
  {
    var kept := Remaining(pod, "volumes").value;
    ReplaceTwice(pod, "volumes");
    var once := Replace(pod, "volumes", kept);
    var again := Put(once, "containers", List(cs));
    assert Put(Replace(again, "volumes", kept), "containers", List(cs)).entries == again.entries;
  }

  lemma NormalizeIdempotent(spec: Tree)
    requires Normalize(spec).Some?
    ensures Normalize(Normalize(spec).value) == Normalize(spec)
  {
    var p := Open(spec).value;
    var n := Rebuild(spec, p);
    var slim := Slim(p.containers[p.at], p.mounts);
    var containers := p.containers[p.at := slim];
    var pod := Put(Replace(p.pod, "volumes", p.volumes), "containers", List(containers));
    var template := Put(p.template, "spec", pod);
    SlimTwice(p.containers[p.at]);
    PodTwice(p.pod, containers);
    ManagerStays(p.containers, slim);
    hide Slim, Replace, Remaining, ManagerAt, DropCert, Elements, Named;
    assert Open(n) == Some(Parts(template, pod, p.volumes, containers, p.at, p.mounts));
    assert containers[p.at := slim] == containers;
    assert Put(template, "spec", pod) == template;
    assert Put(n, "template", template) == n;
  }

  // ---------------------------------------------------------------- the deployment check

  /** Two dictionaries agree on every key outside a set. */
  predicate SameExcept(a: Tree, b: Tree, apart: set<string>) {
    && a.Dict? && b.Dict?
    && a.entries.Keys - apart == b.entries.Keys - apart
    && forall k :: k in a.entries.Keys - apart ==> Same(a.entries[k], b.entries[k])
  }

  /** As InSync, told of the parts normalisation opens. */
  predicate PartsInSync(a: Tree, b: Tree, p: Parts, q: Parts) {
    && SameExcept(a, b, {"template"})
    && SameExcept(p.template, q.template, {"spec"})
    && SameExcept(p.pod, q.pod, {"volumes", "containers"})
    && Same(List(p.volumes), List(q.volumes))
    && |p.containers| == |q.containers| && p.at == q.at < |p.containers|
    && (forall i :: 0 <= i < |p.containers| && i != p.at ==> Same(p.containers[i], q.containers[i]))
    && SameExcept(p.containers[p.at], q.containers[q.at], {"volumeMounts", "image"})
    && Same(List(p.mounts), List(q.mounts))
  }

  lemma SamePut(a: Tree, b: Tree, k: string, v: Tree, w: Tree, apart: set<string>)
    requires a.Dict? && b.Dict? && k !in apart
    ensures SameExcept(Put(a, k, v), Put(b, k, w), apart) <==> SameExcept(a, b, apart + {k}) && Same(v, w)
  {
    var (x, y) := (Put(a, k, v).entries, Put(b, k, w).entries);
    assert x.Keys - apart == (a.entries.Keys - (apart + {k})) + {k};
    assert y.Keys - apart == (b.entries.Keys - (apart + {k})) + {k};
    assert a.entries.Keys - (apart + {k}) == x.Keys - apart - {k};
    assert b.entries.Keys - (apart + {k}) == y.Keys - apart - {k};
    assert x[k] == v && y[k] == w;
    assert forall j :: j in a.entries.Keys - (apart + {k}) ==> x[j] == a.entries[j];
    assert forall j :: j in b.entries.Keys - (apart + {k}) ==> y[j] == b.entries[j];
  }

  lemma SameReplace(a: Tree, b: Tree, k: string, v: seq<Tree>, w: seq<Tree>, apart: set<string>)
    requires a.Dict? && b.Dict? && k !in apart
    ensures SameExcept(Replace(a, k, v), Replace(b, k, w), apart) <==>
              SameExcept(a, b, apart + {k}) && Same(List(v), List(w))
  {
    SamePut(a, b, k, List(v), List(w), apart);
    var (x, y) := (Replace(a, k, v).entries.Keys - apart, Replace(b, k, w).entries.Keys - apart);
    assert v == [] ==> x == a.entries.Keys - (apart + {k});
    assert w == [] ==> y == b.entries.Keys - (apart + {k});
    assert v != [] ==> k in x;
    assert w != [] ==> k in y;
  }

  lemma NameTravels(a: Tree, b: Tree, name: string)
    requires Same(a, b)
    ensures Named(a, name) <==> Named(b, name)
  {
    if Get(a, "name").Some? {
      assert Same(a.entries["name"], b.entries["name"]);
    }
  }

  lemma SameContainers(p: Parts, q: Parts)
    requires p.at < |p.containers| && q.at < |q.containers|
    requires ManagerAt(p.containers) == Some(p.at) && ManagerAt(q.containers) == Some(q.at)
    ensures Same(List(p.containers[p.at := Slim(p.containers[p.at], p.mounts)]),
                 List(q.containers[q.at := Slim(q.containers[q.at], q.mounts)])) <==>
            && |p.containers| == |q.containers| && p.at == q.at
            && (forall i :: 0 <= i < |p.containers| && i != p.at ==> Same(p.containers[i], q.containers[i]))
            && SameExcept(p.containers[p.at], q.containers[q.at], {"volumeMounts", "image"})
            && Same(List(p.mounts), List(q.mounts))
  {
    var (m, n) := (p.containers[p.at], q.containers[q.at]);
    var (s, t) := (Slim(m, p.mounts), Slim(n, q.mounts));
    var (x, y) := (p.containers[p.at := s], q.containers[q.at := t]);
    assert Same(s, t)
        <==> SameExcept(Replace(m, "volumeMounts", p.mounts), Replace(n, "volumeMounts", q.mounts), {"image"});
    SameReplace(m, n, "volumeMounts", p.mounts, q.mounts, {"image"});
    assert {"image"} + {"volumeMounts"} == {"volumeMounts", "image"};
    assert Named(s, "manager") && Named(t, "manager");
    if Same(List(x), List(y)) {
      NameTravels(x[p.at], y[p.at], "manager");
      NameTravels(x[q.at], y[q.at], "manager");
      assert p.at == q.at;
    }
    if p.at == q.at {
      assert forall i :: 0 <= i < |p.containers| && i != p.at ==> x[i] == p.containers[i];
      assert forall i :: 0 <= i < |q.containers| && i != p.at ==> y[i] == q.containers[i];
    }
  }

  lemma ApartFromNothing(a: Tree, b: Tree)
    requires a.Dict? && b.Dict?
    ensures Same(a, b) <==> SameExcept(a, b, {})
  {
  }

  lemma PartsExact(a: Tree, b: Tree, path: Path, order: Order)
    requires Enumerates(order) && Normalize(a).Some? && Normalize(b).Some?
    ensures Diff(Normalize(a).value, Normalize(b).value, path, order) == [] <==>
              PartsInSync(a, b, Open(a).value, Open(b).value)
  {
    hide Diff, Replace, Slim, ManagerAt, Remaining, Same, SameExcept;
    var (p, q) := (Open(a).value, Open(b).value);
    var (cs, ds) := (List(p.containers[p.at := Slim(p.containers[p.at], p.mounts)]),
                     List(q.containers[q.at := Slim(q.containers[q.at], q.mounts)]));
    var (vs, ws) := (Replace(p.pod, "volumes", p.volumes), Replace(q.pod, "volumes", q.volumes));
    var (pod, quod) := (Put(vs, "containers", cs), Put(ws, "containers", ds));
    var (t, u) := (Put(p.template, "spec", pod), Put(q.template, "spec", quod));
    DiffComplete(Normalize(a).value, Normalize(b).value, path, order);
    SamePut(a, b, "template", t, u, {});
    SamePut(p.template, q.template, "spec", pod, quod, {});
    SamePut(vs, ws, "containers", cs, ds, {});
    SameReplace(p.pod, q.pod, "volumes", p.volumes, q.volumes, {"containers"});
    assert {} + {"template"} == {"template"} && {} + {"spec"} == {"spec"} && {} + {"containers"} == {"containers"};
    assert {"containers"} + {"volumes"} == {"volumes", "containers"};
    SameContainers(p, q);
    ApartFromNothing(Put(a, "template", t), Put(b, "template", u));
    ApartFromNothing(t, u);
    ApartFromNothing(pod, quod);
  }

  // ---------------------------------------------------------------- the raw trees

  /** The list under a key; a missing key and an empty value of another kind hold nothing. */
  function Under(t: Tree, k: string): seq<Tree> {
    if t.Dict? && k in t.entries && t.entries[k].List? then t.entries[k].items else []
  }

  /** Iterating what a dictionary holds under the key yields dictionaries only. */
  predicate Iterable(t: Tree, k: string) {
    t.Dict? &&
    (k in t.entries ==>
       || t.entries[k] == Dict(map[]) || t.entries[k] == Leaf(Str(""))
       || (t.entries[k].List? && forall v :: v in t.entries[k].items ==> v.Dict?))
  }

  /** The container at i is the first named manager, and those before it have names. */
  predicate FirstManager(items: seq<Tree>, i: int) {
    0 <= i < |items| && Named(items[i], "manager") &&
    forall j :: 0 <= j < i ==> items[j].Dict? && "name" in items[j].entries && !Named(items[j], "manager")
  }

  predicate HasPod(spec: Tree) {
    && spec.Dict? && "template" in spec.entries
    && spec.entries["template"].Dict? && "spec" in spec.entries["template"].entries
  }

  function PodOf(spec: Tree): Tree
    requires HasPod(spec)
  {
    spec.entries["template"].entries["spec"]
  }

  /** The specs on which normalisation does not raise. */
  predicate WellFormed(spec: Tree) {
    && HasPod(spec) && Iterable(PodOf(spec), "volumes")
    && exists i :: 0 <= i < |Under(PodOf(spec), "containers")| &&
         FirstManager(Under(PodOf(spec), "containers"), i)
             && Iterable(Under(PodOf(spec), "containers")[i], "volumeMounts")
  }

  /** Passing over the elements named cert in either, the two lists agree element by element. */
  predicate SameOthers(a: seq<Tree>, b: seq<Tree>)
    decreases |a| + |b|
  {
    if a != [] && Named(a[0], "cert") then SameOthers(a[1..], b)
    else if b != [] && Named(b[0], "cert") then SameOthers(a, b[1..])
    else if a == [] || b == [] then a == b
    else Same(a[0], b[0]) && SameOthers(a[1..], b[1..])
  }

  predicate ContainersInSync(cs: seq<Tree>, ds: seq<Tree>) {
    |cs| == |ds| &&
    exists i :: 0 <= i < |cs| && FirstManager(cs, i) && FirstManager(ds, i)
      && SameExcept(cs[i], ds[i], {"volumeMounts", "image"})
      && SameOthers(Under(cs[i], "volumeMounts"), Under(ds[i], "volumeMounts"))
      && forall j :: 0 <= j < |cs| && j != i ==> Same(cs[j], ds[j])
  }

  predicate PodsInSync(p: Tree, q: Tree) {
    && SameExcept(p, q, {"volumes", "containers"})
    && SameOthers(Under(p, "volumes"), Under(q, "volumes"))
    && ContainersInSync(Under(p, "containers"), Under(q, "containers"))
  }

  /** What the check is for: the two Deployment specs agree everywhere but in the volumes named
      cert, the manager's mounts named cert, and the manager's image. A key holding no other
      volume or mount counts as missing. */
  predicate InSync(a: Tree, b: Tree) {
    && HasPod(a) && HasPod(b)
    && SameExcept(a, b, {"template"})
    && SameExcept(a.entries["template"], b.entries["template"], {"spec"})
    && PodsInSync(PodOf(a), PodOf(b))
  }

  lemma {:induction false} FilteredSame(a: seq<Tree>, b: seq<Tree>)
    requires DropCert(a).Some? && DropCert(b).Some?
    ensures Same(List(DropCert(a).value), List(DropCert(b).value)) <==> SameOthers(a, b)
    decreases |a| + |b|
  {
    if a != [] && Named(a[0], "cert") {
      FilteredSame(a[1..], b);
    } else if b != [] && Named(b[0], "cert") {
      FilteredSame(a, b[1..]);
    } else if a != [] && b != [] {
      FilteredSame(a[1..], b[1..]);
      ConsSame(a[0], b[0], DropCert(a[1..]).value, DropCert(b[1..]).value);
    }
  }

  lemma ConsSame(x: Tree, y: Tree, xs: seq<Tree>, ys: seq<Tree>)
    ensures Same(List([x] + xs), List([y] + ys)) <==> Same(x, y) && Same(List(xs), List(ys))
  {
    var (a, b) := ([x] + xs, [y] + ys);
    if Same(List(a), List(b)) {
      assert Same(a[0], b[0]);
      forall i | 0 <= i < |xs| ensures Same(xs[i], ys[i]) {
        assert Same(a[i + 1], b[i + 1]);
      }
    }
  }

  lemma {:induction false} OthersFound(a: seq<Tree>, b: seq<Tree>, v: Tree) returns (w: Tree)
    requires SameOthers(a, b) && v in a && !Named(v, "cert")
    ensures w in b && Same(v, w)
    decreases |a| + |b|
  {
    if Named(a[0], "cert") {
      w := OthersFound(a[1..], b, v);
    } else if b != [] && Named(b[0], "cert") {
      w := OthersFound(a, b[1..], v);
    } else if v == a[0] {
      w := b[0];
    } else {
      w := OthersFound(a[1..], b[1..], v);
    }
  }

  lemma {:induction false} DropCertDefined(items: seq<Tree>)
    ensures DropCert(items).Some? <==> forall v :: v in items ==> v.Dict?
  {
    if items != [] {
      DropCertDefined(items[1..]);
      assert forall v :: v in items <==> v == items[0] || v in items[1..];
    }
  }

  lemma RemainingUnder(t: Tree, k: string)
    ensures Remaining(t, k).Some? <==> Iterable(t, k)
    ensures Iterable(t, k) ==> DropCert(Under(t, k)).Some? && Remaining(t, k) == DropCert(Under(t, k))
  {
    DropCertDefined(Under(t, k));
    DropCertDefined([]);
  }

  lemma {:induction false} ManagerIsFirst(items: seq<Tree>, i: int)
    ensures ManagerAt(items) == Some(i) <==> FirstManager(items, i)
  {
    if items != [] && Get(items[0], "name").Some? && !Named(items[0], "manager") && i > 0 {
      ManagerIsFirst(items[1..], i - 1);
      assert forall j :: 0 < j < |items| ==> items[1..][j - 1] == items[j];
      if FirstManager(items[1..], i - 1) {
        assert forall j :: 0 <= j < i ==> j == 0 || items[j] == items[1..][j - 1];
      }
    } else if FirstManager(items, i) && i > 0 {
      assert items[0].Dict?;
    }
  }

  /** Normalisation raises on exactly the specs that are not well formed. */
  lemma NormalizesExactly(spec: Tree)
    ensures Normalize(spec).Some? <==> WellFormed(spec)
  {
    if HasPod(spec) {
      var cs := Under(PodOf(spec), "containers");
      RemainingUnder(PodOf(spec), "volumes");
      if ManagerAt(cs).Some? {
        ManagerIsFirst(cs, ManagerAt(cs).value);
        RemainingUnder(cs[ManagerAt(cs).value], "volumeMounts");
      }
      forall i | FirstManager(cs, i) ensures ManagerAt(cs) == Some(i) {
        ManagerIsFirst(cs, i);
      }
    }
  }

  lemma OpenedRaw(spec: Tree)
    requires Normalize(spec).Some?
    ensures HasPod(spec)
    ensures var (p, cs) := (Open(spec).value, Under(PodOf(spec), "containers"));
            && p.template == spec.entries["template"] && p.pod == PodOf(spec) && p.containers == cs
            && FirstManager(cs, p.at) && (forall i :: FirstManager(cs, i) ==> i == p.at)
            && DropCert(Under(p.pod, "volumes")) == Some(p.volumes)
            && DropCert(Under(cs[p.at], "volumeMounts")) == Some(p.mounts)
  {
    var p := Open(spec).value;
    var cs := Under(PodOf(spec), "containers");
    RemainingUnder(p.pod, "volumes");
    RemainingUnder(cs[p.at], "volumeMounts");
    ManagerIsFirst(cs, p.at);
    forall i | FirstManager(cs, i) ensures i == p.at {
      ManagerIsFirst(cs, i);
    }
  }

  /** The diff of the normalised specs is empty exactly when the two specs are in sync. */
  lemma CheckIsExact(a: Tree, b: Tree, path: Path, order: Order)
    requires Enumerates(order) && Normalize(a).Some? && Normalize(b).Some?
    ensures Diff(Normalize(a).value, Normalize(b).value, path, order) == [] <==> InSync(a, b)
  {
    PartsExact(a, b, path, order);
    OpenedRaw(a);
    OpenedRaw(b);
    var (p, q) := (Open(a).value, Open(b).value);
    hide Diff, Normalize, Open, DropCert, Same, SameExcept, FirstManager, SameOthers, Under, HasPod, Enumerates;
    FilteredSame(Under(p.pod, "volumes"), Under(q.pod, "volumes"));
    ContainersParts(p, q);
  }

  lemma ContainersParts(p: Parts, q: Parts)
    requires FirstManager(p.containers, p.at) && forall i :: FirstManager(p.containers, i) ==> i == p.at
    requires FirstManager(q.containers, q.at) && forall i :: FirstManager(q.containers, i) ==> i == q.at
    requires DropCert(Under(p.containers[p.at], "volumeMounts")) == Some(p.mounts)
    requires DropCert(Under(q.containers[q.at], "volumeMounts")) == Some(q.mounts)
    ensures ContainersInSync(p.containers, q.containers) <==>
              && |p.containers| == |q.containers| && p.at == q.at < |p.containers|
              && (forall i :: 0 <= i < |p.containers| && i != p.at ==> Same(p.containers[i], q.containers[i]))
              && SameExcept(p.containers[p.at], q.containers[q.at], {"volumeMounts", "image"})
              && Same(List(p.mounts), List(q.mounts))
  {
    hide DropCert, Same, SameExcept, SameOthers, Under;
    FilteredSame(Under(p.containers[p.at], "volumeMounts"), Under(q.containers[q.at], "volumeMounts"));
  }

  /** The guard that follows the diff, against dropping any volume but cert, adds nothing to an
      empty diff: every other volume of the canonical spec has one of the same name in the bundle. */
  lemma GuardIsImplied(a: Tree, b: Tree, path: Path, order: Order, v: Tree)
    requires Enumerates(order) && WellFormed(a) && WellFormed(b)
    requires Diff(Normalize(a).GetOr(a), Normalize(b).GetOr(b), path, order) == []
    requires v in Under(PodOf(a), "volumes") && Get(v, "name").Some? && !Named(v, "cert")
    ensures exists w ::
              && w in Under(PodOf(b), "volumes")
              && Get(w, "name").Some? && Same(v.entries["name"], w.entries["name"])
  {
    NormalizesExactly(a);
    NormalizesExactly(b);
    CheckIsExact(a, b, path, order);
    hide Diff, Normalize, SameExcept, ContainersInSync;
    var w := OthersFound(Under(PodOf(a), "volumes"), Under(PodOf(b), "volumes"), v);
    NamedAlike(v, w);
  }

  lemma NamedAlike(v: Tree, w: Tree)
    requires Same(v, w) && Get(v, "name").Some?
    ensures Get(w, "name").Some? && Same(v.entries["name"], w.entries["name"])
  {
  }
}
