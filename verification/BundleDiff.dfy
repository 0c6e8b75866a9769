/** hack/verify-bundle-sync.py: the structural diff of two YAML trees. */
module BundleDiff {
  import opened Objects

  datatype Scalar = Null | Bool(b: bool) | Int(i: int) | Float(r: real) | Str(s: string)

  datatype Tree = Dict(entries: map<string, Tree>) | List(items: seq<Tree>) | Leaf(value: Scalar)

  // ---------------------------------------------------------------- equality

  /** Python compares booleans, integers and floats by numeric value. */
  function Number(v: Scalar): Option<real> {
    match v
    case Bool(b) => Some(if b then 1.0 else 0.0)
    case Int(i) => Some(i as real)
    case Float(r) => Some(r)
    case _ => None
  }

  predicate Equal(v: Scalar, w: Scalar) {
    if Number(v).Some? && Number(w).Some? then Number(v) == Number(w) else v == w
  }

  /** Structural equality, all the way down. */
  predicate Same(a: Tree, b: Tree) {
    match (a, b)
    case (Dict(x), Dict(y)) => x.Keys == y.Keys && forall k :: k in x ==> Same(x[k], y[k])
    case (List(x), List(y)) => |x| == |y| && forall i :: 0 <= i < |x| ==> Same(x[i], y[i])
    case (Leaf(v), Leaf(w)) => Equal(v, w)
    case _ => false
  }

  // ---------------------------------------------------------------- diff

  datatype Hop = Key(k: string) | Index(i: nat)

  type Path = seq<Hop>

  datatype Line = OnlyInCSV(path: Path) | OnlyInCanonical(path: Path) | LengthDiffers(path: Path) | Differs(path: Path)

  /** How the keys of both dictionaries are ordered; the script sorts them. */
  type Order = set<string> -> seq<string>

  ghost predicate Enumerates(order: Order) { forall s, k :: k in order(s) <==> k in s }

  function Diff(a: Tree, b: Tree, path: Path, order: Order): seq<Line>
    decreases a, 1, 0
  {
    match (a, b)
    case (Dict(x), Dict(y)) => DiffKeys(a, b, order(x.Keys + y.Keys), path, order)
    case (List(x), List(y)) =>
      (if |x| != |y| then [LengthDiffers(path)] else []) + DiffItems(a, b, 0, path, order)
    case (Leaf(v), Leaf(w)) => if Equal(v, w) then [] else [Differs(path)]
    case _ => [Differs(path)]
  }

  function DiffKeys(a: Tree, b: Tree, keys: seq<string>, path: Path, order: Order): seq<Line>
    requires a.Dict? && b.Dict?
    decreases a, 0, |keys|
  {
    if keys == [] then []
    else
      var (k, p) := (keys[0], path + [Key(keys[0])]);
      (if k !in a.entries then if k in b.entries then [OnlyInCSV(p)] else []
       else if k !in b.entries then [OnlyInCanonical(p)]
       else Diff(a.entries[k], b.entries[k], p, order)) + DiffKeys(a, b, keys[1..], path, order)
  }

  function DiffItems(a: Tree, b: Tree, i: nat, path: Path, order: Order): seq<Line>
    requires a.List? && b.List? && i <= |a.items| && i <= |b.items|
    decreases a, 0, |a.items| - i
  {
    if i == |a.items| || i == |b.items| then []
    else Diff(a.items[i], b.items[i], path + [Index(i)], order) + DiffItems(a, b, i + 1, path, order)
  }

  lemma {:induction false} DiffComplete(a: Tree, b: Tree, path: Path, order: Order)
    requires Enumerates(order)
    ensures Diff(a, b, path, order) == [] <==> Same(a, b)
    decreases a, 1, 0
  {
    match (a, b) {
      case (Dict(x), Dict(y)) =>
        KeysComplete(a, b, order(x.Keys + y.Keys), path, order);
        assert forall k :: k in x.Keys + y.Keys <==> k in order(x.Keys + y.Keys);
      case (List(x), List(y)) =>
        ItemsComplete(a, b, 0, path, order);
      case _ =>
    }
  }

  lemma {:induction false} KeysComplete(a: Tree, b: Tree, keys: seq<string>, path: Path, order: Order)
    requires Enumerates(order) && a.Dict? && b.Dict?
    ensures DiffKeys(a, b, keys, path, order) == [] <==>
              forall k :: k in keys ==> (k in a.entries <==> k in b.entries) &&
                                        (k in a.entries && k in b.entries ==> Same(a.entries[k], b.entries[k]))
    decreases a, 0, |keys|
  {
    if keys != [] {
      var k := keys[0];
      KeysComplete(a, b, keys[1..], path, order);
      if k in a.entries && k in b.entries {
        DiffComplete(a.entries[k], b.entries[k], path + [Key(k)], order);
      }
      assert forall j :: j in keys <==> j == k || j in keys[1..];
    }
  }

  lemma {:induction false} ItemsComplete(a: Tree, b: Tree, i: nat, path: Path, order: Order)
    requires Enumerates(order) && a.List? && b.List? && i <= |a.items| && i <= |b.items|
    ensures DiffItems(a, b, i, path, order) == [] <==>
              forall j :: i <= j < |a.items| && j < |b.items| ==> Same(a.items[j], b.items[j])
    decreases a, 0, |a.items| - i
  {
    if i < |a.items| && i < |b.items| {
      DiffComplete(a.items[i], b.items[i], path + [Index(i)], order);
      ItemsComplete(a, b, i + 1, path, order);
    }
  }

  /** What stands at a relative path of a tree. */
  function Lookup(t: Tree, rel: Path): Option<Tree> {
    if rel == [] then Some(t)
    else
      match rel[0]
      case Key(k) => if t.Dict? && k in t.entries then Lookup(t.entries[k], rel[1..]) else None
      case Index(i) => if t.List? && i < |t.items| then Lookup(t.items[i], rel[1..]) else None
  }

  /** The line tells the truth about what the two trees hold at its place below `path`. */
  predicate TellsTruth(l: Line, a: Tree, b: Tree, path: Path) {
    && path <= l.path
    && var (x, y) := (Lookup(a, l.path[|path|..]), Lookup(b, l.path[|path|..]));
       match l
       case OnlyInCSV(_) => x.None? && y.Some?
       case OnlyInCanonical(_) => x.Some? && y.None?
       case LengthDiffers(_) => x.Some? && y.Some? && x.value.List? && y.value.List?
           && |x.value.items| != |y.value.items|
       case Differs(_) => x.Some? && y.Some? && !Same(x.value, y.value)
  }

  /** A truth told about two children at the same hop is a truth about their parents. */
  lemma TruthRises(l: Line, a: Tree, b: Tree, x: Tree, y: Tree, path: Path, hop: Hop)
    requires TellsTruth(l, x, y, path + [hop])
    requires forall rel: Path :: Lookup(a, [hop] + rel) == Lookup(x, rel) && Lookup(b, [hop] + rel) == Lookup(y, rel)
    ensures TellsTruth(l, a, b, path)
  {
    var rel := l.path[|path| + 1..];
    assert l.path[|path|..] == [hop] + rel by { assert l.path[|path|] == (path + [hop])[|path|]; }
    assert Lookup(a, [hop] + rel) == Lookup(x, rel);
  }

  lemma {:induction false} DiffSound(a: Tree, b: Tree, path: Path, order: Order)
    ensures forall l :: l in Diff(a, b, path, order) ==> TellsTruth(l, a, b, path)
    decreases a, 1, 0
  {
    match (a, b) {
      case (Dict(x), Dict(y)) => KeysSound(a, b, order(x.Keys + y.Keys), path, order);
      case (List(x), List(y)) => ItemsSound(a, b, 0, path, order);
      case _ =>
    }
  }

  lemma {:induction false} KeysSound(a: Tree, b: Tree, keys: seq<string>, path: Path, order: Order)
    requires a.Dict? && b.Dict?
    ensures forall l :: l in DiffKeys(a, b, keys, path, order) ==> TellsTruth(l, a, b, path)
    decreases a, 0, |keys|
  {
    if keys != [] {
      var (k, p) := (keys[0], path + [Key(keys[0])]);
      KeysSound(a, b, keys[1..], path, order);
      assert p[|path|..] == [Key(k)] && [Key(k)][1..] == [];
      assert Lookup(a, [Key(k)]) == (if k in a.entries then Some(a.entries[k]) else None);
      assert Lookup(b, [Key(k)]) == (if k in b.entries then Some(b.entries[k]) else None);
      if k !in a.entries && k in b.entries {
        assert TellsTruth(OnlyInCSV(p), a, b, path);
      } else if k in a.entries && k !in b.entries {
        assert TellsTruth(OnlyInCanonical(p), a, b, path);
      } else if k in a.entries {
        DiffSound(a.entries[k], b.entries[k], p, order);
        forall l | l in Diff(a.entries[k], b.entries[k], p, order) ensures TellsTruth(l, a, b, path) {
          TruthRises(l, a, b, a.entries[k], b.entries[k], path, Key(k));
        }
      }
    }
  }

  lemma {:induction false} ItemsSound(a: Tree, b: Tree, i: nat, path: Path, order: Order)
    requires a.List? && b.List? && i <= |a.items| && i <= |b.items|
    ensures forall l :: l in DiffItems(a, b, i, path, order) ==> TellsTruth(l, a, b, path)
    decreases a, 0, |a.items| - i
  {
    if i < |a.items| && i < |b.items| {
      DiffSound(a.items[i], b.items[i], path + [Index(i)], order);
      ItemsSound(a, b, i + 1, path, order);
      forall l | l in Diff(a.items[i], b.items[i], path + [Index(i)], order) ensures TellsTruth(l, a, b, path) {
        TruthRises(l, a, b, a.items[i], b.items[i], path, Index(i));
      }
    }
  }

  // ---------------------------------------------------------------- exactly which lines

  /** Two subtrees the script compares as wholes, and finds different. */
  predicate Unlike(x: Tree, y: Tree) {
    !(x.Dict? && y.Dict?) && !(x.List? && y.List?) && !(x.Leaf? && y.Leaf? && Equal(x.value, y.value))
  }

  /** At this place both trees hold dictionaries, and only the second has the key. */
  predicate KeyMissing(a: Tree, b: Tree, rel: Path) {
    rel != [] && rel[|rel| - 1].Key? &&
    var (x, y) := (Lookup(a, rel[..|rel| - 1]), Lookup(b, rel[..|rel| - 1]));
    && x.Some? && y.Some? && x.value.Dict? && y.value.Dict?
    && rel[|rel| - 1].k !in x.value.entries && rel[|rel| - 1].k in y.value.entries
  }

  /** What the two trees hold at the line's place calls for exactly this line. */
  predicate Deserved(l: Line, a: Tree, b: Tree, rel: Path) {
    var (x, y) := (Lookup(a, rel), Lookup(b, rel));
    match l
    case OnlyInCSV(_) => KeyMissing(a, b, rel)
    case OnlyInCanonical(_) => KeyMissing(b, a, rel)
    case LengthDiffers(_) =>
      x.Some? && y.Some? && x.value.List? && y.value.List? && |x.value.items| != |y.value.items|
    case Differs(_) => x.Some? && y.Some? && Unlike(x.value, y.value)
  }

  /** The child behind one hop. */
  function Child(t: Tree, hop: Hop): Option<Tree> {
    match hop
    case Key(k) => if t.Dict? && k in t.entries then Some(t.entries[k]) else None
    case Index(i) => if t.List? && i < |t.items| then Some(t.items[i]) else None
  }

  lemma LookupHop(t: Tree, hop: Hop, rest: Path)
    ensures Lookup(t, [hop] + rest) == if Child(t, hop).Some? then Lookup(Child(t, hop).value, rest) else None
  {
    assert ([hop] + rest)[1..] == rest;
  }

  /** Below a hop a line is deserved exactly when it is deserved between the children. */
  lemma DeservedBelow(l: Line, a: Tree, b: Tree, hop: Hop, rest: Path)
    requires rest != [] || l.LengthDiffers? || l.Differs?
    ensures Deserved(l, a, b, [hop] + rest) <==>
              Child(a, hop).Some? && Child(b, hop).Some? && Deserved(l, Child(a, hop).value, Child(b, hop).value, rest)
  {
    var rel := [hop] + rest;
    LookupHop(a, hop, rest);
    LookupHop(b, hop, rest);
    if rest != [] {
      assert rel[..|rel| - 1] == [hop] + rest[..|rest| - 1];
      LookupHop(a, hop, rest[..|rest| - 1]);
      LookupHop(b, hop, rest[..|rest| - 1]);
    }
  }

  /** The line the script writes for one key. */
  predicate KeyLine(l: Line, a: Tree, b: Tree, k: string, path: Path, order: Order)
    requires a.Dict? && b.Dict?
  {
    if k in a.entries && k in b.entries then
      l in Diff(a.entries[k], b.entries[k], path + [Key(k)], order)
    else
      || (l == OnlyInCSV(path + [Key(k)]) && k in b.entries)
      || (l == OnlyInCanonical(path + [Key(k)]) && k in a.entries)
  }

  lemma {:induction false} KeyLines(l: Line, a: Tree, b: Tree, keys: seq<string>, path: Path, order: Order)
    requires a.Dict? && b.Dict?
    ensures l in DiffKeys(a, b, keys, path, order) <==> exists k :: k in keys && KeyLine(l, a, b, k, path, order)
  {
    if keys != [] {
      KeyLines(l, a, b, keys[1..], path, order);
      var (k, p) := (keys[0], path + [Key(keys[0])]);
      var first :=
        if k !in a.entries then if k in b.entries then [OnlyInCSV(p)] else []
        else if k !in b.entries then [OnlyInCanonical(p)]
        else Diff(a.entries[k], b.entries[k], p, order);
      assert DiffKeys(a, b, keys, path, order) == first + DiffKeys(a, b, keys[1..], path, order);
      assert l in first <==> KeyLine(l, a, b, k, path, order);
      assert forall k :: k in keys <==> k == keys[0] || k in keys[1..];
    }
  }

  lemma {:induction false} ItemLines(l: Line, a: Tree, b: Tree, i: nat, path: Path, order: Order)
    requires a.List? && b.List? && i <= |a.items| && i <= |b.items|
    ensures l in DiffItems(a, b, i, path, order) <==>
              exists j :: i <= j < |a.items| && j < |b.items|
                  && l in Diff(a.items[j], b.items[j], path + [Index(j)], order)
    decreases |a.items| - i
  {
    if i < |a.items| && i < |b.items| {
      ItemLines(l, a, b, i + 1, path, order);
    }
  }

  /** The diff holds exactly the lines deserved, at every depth: none is made up, none is missed. */
  lemma {:induction false} DiffExactly(l: Line, a: Tree, b: Tree, path: Path, order: Order)
    requires Enumerates(order)
    ensures l in Diff(a, b, path, order) <==> path <= l.path && Deserved(l, a, b, l.path[|path|..])
    decreases a
  {
    if a.Dict? && b.Dict? {
      DictExactly(l, a, b, path, order);
    } else if a.List? && b.List? {
      ListExactly(l, a, b, path, order);
    } else {
      WholeExactly(l, a, b, path, order);
    }
  }

  /** Two subtrees compared as wholes have no lines but their own. */
  lemma WholeExactly(l: Line, a: Tree, b: Tree, path: Path, order: Order)
    requires !(a.Dict? && b.Dict?) && !(a.List? && b.List?)
    ensures l in Diff(a, b, path, order) <==> path <= l.path && Deserved(l, a, b, l.path[|path|..])
  {
    if path < l.path {
      var rel := l.path[|path|..];
      assert rel == [rel[0]] + rel[1..];
      LookupHop(a, rel[0], rel[1..]);
      LookupHop(b, rel[0], rel[1..]);
      if |rel| > 1 {
        assert rel[..|rel| - 1] == [rel[0]] + rel[1..|rel| - 1];
        LookupHop(a, rel[0], rel[1..|rel| - 1]);
        LookupHop(b, rel[0], rel[1..|rel| - 1]);
      }
    } else {
      assert path <= l.path ==> l.path == path;
    }
  }

  /** A line below the root, told by the children. */
  lemma Below(l: Line, a: Tree, b: Tree, hop: Hop, rest: Path)
    requires Child(a, hop).Some? && Child(b, hop).Some?
    ensures Deserved(l, Child(a, hop).value, Child(b, hop).value, rest) <==>
              Deserved(l, a, b, [hop] + rest) && (rest != [] || l.LengthDiffers? || l.Differs?)
  {
    if rest != [] || l.LengthDiffers? || l.Differs? {
      DeservedBelow(l, a, b, hop, rest);
    }
  }

  /** At a hop one side lacks, only the line for the missing key is deserved; at one both have, no
      such line is. */
  lemma HereOrNot(l: Line, a: Tree, b: Tree, hop: Hop, rest: Path)
    ensures Child(a, hop).None? || Child(b, hop).None? ==>
              (Deserved(l, a, b, [hop] + rest) <==>
                 && rest == [] && hop.Key? && a.Dict? && b.Dict?
                 && (|| (l.OnlyInCSV? && hop.k !in a.entries && hop.k in b.entries)
                     || (l.OnlyInCanonical? && hop.k in a.entries && hop.k !in b.entries)))
    ensures Child(a, hop).Some? && Child(b, hop).Some? && rest == [] && (l.OnlyInCSV? || l.OnlyInCanonical?) ==>
              !Deserved(l, a, b, [hop] + rest)
  {
    var rel := [hop] + rest;
    LookupHop(a, hop, rest);
    LookupHop(b, hop, rest);
    if rest != [] {
      DeservedBelow(l, a, b, hop, rest);
    } else {
      assert rel[..|rel| - 1] == [];
    }
  }

  lemma SplitPath(whole: Path, path: Path)
    requires path < whole
    ensures whole[|path|..] == [whole[|path|]] + whole[|path| + 1..] && path + [whole[|path|]] <= whole
  {
  }

  /** Between the children of a hop both trees have, the path going through that hop. */
  lemma ThroughHop(l: Line, a: Tree, b: Tree, path: Path, order: Order)
    requires path < l.path && Child(a, l.path[|path|]).Some? && Child(b, l.path[|path|]).Some?
    requires var (hop, p) := (l.path[|path|], path + [l.path[|path|]]);
             l in Diff(Child(a, hop).value, Child(b, hop).value, p, order) <==>
               p <= l.path && Deserved(l, Child(a, hop).value, Child(b, hop).value, l.path[|p|..])
    ensures var (hop, p) := (l.path[|path|], path + [l.path[|path|]]);
            l in Diff(Child(a, hop).value, Child(b, hop).value, p, order) <==> Deserved(l, a, b, l.path[|path|..])
  {
    hide Diff, Deserved, Child;
    var (hop, rest) := (l.path[|path|], l.path[|path| + 1..]);
    SplitPath(l.path, path);
    Below(l, a, b, hop, rest);
    HereOrNot(l, a, b, hop, rest);
  }

  lemma {:induction false} DictExactly(l: Line, a: Tree, b: Tree, path: Path, order: Order)
    requires Enumerates(order) && a.Dict? && b.Dict?
    ensures l in Diff(a, b, path, order) <==> path <= l.path && Deserved(l, a, b, l.path[|path|..])
    decreases a, 0
  {
    var keys := order(a.entries.Keys + b.entries.Keys);
    KeyLines(l, a, b, keys, path, order);
    assert forall k :: k in keys <==> k in a.entries || k in b.entries;
    forall k | k in a.entries && k in b.entries
      ensures l in Diff(a.entries[k], b.entries[k], path + [Key(k)], order) <==>
                path + [Key(k)] <= l.path && Deserved(l, a.entries[k], b.entries[k], l.path[|path| + 1..])
    {
      DiffExactly(l, a.entries[k], b.entries[k], path + [Key(k)], order);
    }
    assert l in Diff(a, b, path, order) <==> exists k :: k in keys && KeyLine(l, a, b, k, path, order);
    hide Diff, Deserved, Enumerates, Lookup;
    forall k | k in keys && KeyLine(l, a, b, k, path, order) ensures path < l.path && l.path[|path|] == Key(k) {
      assert path + [Key(k)] <= l.path;
      assert l.path[|path|] == (path + [Key(k)])[|path|];
    }
    if path < l.path {
      HopLine(l, a, b, path, order);
      if l.path[|path|].Key? && l.path[|path|].k in keys {
        assert KeyLine(l, a, b, l.path[|path|].k, path, order) <==> Deserved(l, a, b, l.path[|path|..]);
      }
    } else if path <= l.path {
      RootDict(l, a, b);
      assert l.path == path && l.path[|path|..] == [];
    }
  }

  lemma RootDict(l: Line, a: Tree, b: Tree)
    requires a.Dict? && b.Dict?
    ensures !Deserved(l, a, b, [])
  {
  }

  /** The hop the path takes next decides: its key's line is the deserved one. */
  lemma HopLine(l: Line, a: Tree, b: Tree, path: Path, order: Order)
    requires a.Dict? && b.Dict? && path < l.path
    requires var hop := l.path[|path|];
             hop.Key? && hop.k in a.entries && hop.k in b.entries ==>
               (l in Diff(a.entries[hop.k], b.entries[hop.k], path + [hop], order) <==>
                  path + [hop] <= l.path && Deserved(l, a.entries[hop.k], b.entries[hop.k], l.path[|path| + 1..]))
    ensures var hop := l.path[|path|];
            Deserved(l, a, b, l.path[|path|..]) <==>
              hop.Key? && (hop.k in a.entries || hop.k in b.entries) && KeyLine(l, a, b, hop.k, path, order)
  {
    hide Diff, Deserved;
    var (hop, rest) := (l.path[|path|], l.path[|path| + 1..]);
    SplitPath(l.path, path);
    if Child(a, hop).Some? && Child(b, hop).Some? {
      ThroughHop(l, a, b, path, order);
    } else {
      HereOrNot(l, a, b, hop, rest);
      assert rest == [] <==> l.path == path + [hop];
    }
  }

  /** At the root of two lists only their lengths can be at fault. */
  lemma ListRoot(l: Line, a: Tree, b: Tree, path: Path, order: Order)
    requires a.List? && b.List?
    ensures l in Diff(a, b, path, order) <==>
              (l == LengthDiffers(path) && |a.items| != |b.items|) || l in DiffItems(a, b, 0, path, order)
    ensures l.path == path ==> (Deserved(l, a, b, l.path[|path|..]) <==> l.LengthDiffers? && |a.items| != |b.items|)
  {
    assert l.path == path ==> l.path[|path|..] == [];
  }

  lemma {:induction false} ListExactly(l: Line, a: Tree, b: Tree, path: Path, order: Order)
    requires Enumerates(order) && a.List? && b.List?
    ensures l in Diff(a, b, path, order) <==> path <= l.path && Deserved(l, a, b, l.path[|path|..])
    decreases a, 0
  {
    forall j | 0 <= j < |a.items| && j < |b.items|
      ensures l in Diff(a.items[j], b.items[j], path + [Index(j)], order) <==>
                path + [Index(j)] <= l.path && Deserved(l, a.items[j], b.items[j], l.path[|path| + 1..])
    {
      DiffExactly(l, a.items[j], b.items[j], path + [Index(j)], order);
    }
    hide Diff, DiffItems, Deserved, Enumerates, Lookup;
    ListRoot(l, a, b, path, order);
    ItemLines(l, a, b, 0, path, order);
    forall j | 0 <= j < |a.items| && j < |b.items| && l in Diff(a.items[j], b.items[j], path + [Index(j)], order)
      ensures path < l.path && l.path[|path|] == Index(j)
    {
      OneHop(l, path, j);
    }
    if path < l.path {
      var hop := l.path[|path|];
      if hop.Index? && hop.i < |a.items| && hop.i < |b.items| {
        ItemBelow(l, a, b, path, hop.i, order);
      } else {
        SplitPath(l.path, path);
        HereOrNot(l, a, b, hop, l.path[|path| + 1..]);
      }
    } else {
      assert path <= l.path ==> l.path == path;
    }
  }

  /** Only the hop the path takes next can lead to the line. */
  lemma OneHop(l: Line, path: Path, j: nat)
    requires path + [Index(j)] <= l.path
    ensures path < l.path && l.path[|path|] == Index(j)
  {
    assert l.path[|path|] == (path + [Index(j)])[|path|];
  }

  lemma ItemBelow(l: Line, a: Tree, b: Tree, path: Path, i: nat, order: Order)
    requires a.List? && b.List? && i < |a.items| && i < |b.items| && path < l.path && l.path[|path|] == Index(i)
    requires l in Diff(a.items[i], b.items[i], path + [Index(i)], order) <==>
               path + [Index(i)] <= l.path && Deserved(l, a.items[i], b.items[i], l.path[|path| + 1..])
    ensures Deserved(l, a, b, l.path[|path|..]) <==>
              l in Diff(a.items[i], b.items[i], path + [Index(i)], order)
  {
    hide Diff, DiffItems, Deserved, Lookup;
    ThroughHop(l, a, b, path, order);
  }

  /** Python's equality on scalars is identity, but across the kinds of number. */
  lemma EqualIsExact(v: Scalar, w: Scalar)
    ensures v == w ==> Equal(v, w)
    ensures Equal(v, w) ==> Equal(w, v)
    ensures v.Str? || v.Null? || w.Str? || w.Null? ==> (Equal(v, w) <==> v == w)
    ensures v.Int? && w.Int? ==> (Equal(v, w) <==> v.i == w.i)
    ensures v.Bool? && w.Int? ==> (Equal(v, w) <==> w.i == (if v.b then 1 else 0))
    ensures v.Int? && w.Float? ==> (Equal(v, w) <==> v.i as real == w.r)
  {
  }
}
