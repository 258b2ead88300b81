/**
  Host results (src/component_api.c): what a component returns is measured,
  staged, charged to the host's budget and committed, or not at all.
 */
module HostResult {
  import opened Common

  type Ref = nat

  const MAX_DEPTH := 64
  const MAX_REFS := MAX32

  /** The C sizes that the accounting uses. */
  datatype Sizes = Sizes(value: nat, result: nat, resource: nat, adopted: nat, endpoint: nat, flags: nat)

  /** An owned resource of the canonical value. */
  datatype Handle = Handle(context: Ref, identity: nat, rep: nat, external: bool)

  /** The internal result. `Broken` stands for whatever measuring refuses. */
  datatype Source =
    | Plain
    | Text(present: bool, size: nat)
    | Items(items: seq<Source>)
    | Choice(payload: Option<Source>)
    | FlagWords
    | Owned(handle: Handle)
    | End(endpoint: Ref)
    | Broken(status: Status)

  /** The staged host value. `count` is the length of the array that was
      allocated, `items` the part of it that is filled. */
  datatype Node =
    | Leaf
    | Str(present: bool, size: nat)
    | Array(count: nat, items: seq<Node>)
    | Box(payload: Option<Node>)
    | Words
    | Own(handle: Handle)
    | Tip(endpoint: Ref)

  // ---------------------------------------------------------------- what a tree consists of

  /** A separately accounted piece of a result. */
  datatype Part =
    | ArrayPart(count: nat)
    | BoxPart
    | TextPart(bytes: nat)
    | FlagsPart
    | OwnPart(handle: Handle)
    | EndPart(endpoint: Ref)
    | RootPart

  function Arity(v: Source): nat {
    if v.Items? then |v.items| else 0
  }

  function Filled(n: Node): nat {
    if n.Array? then |n.items| else 0
  }

  function Parts(n: Node): seq<Part>
    decreases n, Filled(n) + 1
  {
    match n
    case Leaf => []
    case Str(present, size) => if present then [TextPart(if size == 0 then 1 else size)] else []
    case Array(count, items) => (if count == 0 then [] else [ArrayPart(count)]) + PartsTo(n, |items|)
    case Box(payload) => if payload.None? then [] else [BoxPart] + Parts(payload.value)
    case Words => [FlagsPart]
    case Own(h) => [OwnPart(h)]
    case Tip(e) => [EndPart(e)]
  }

  function PartsTo(n: Node, k: nat): seq<Part>
    requires n.Array? && k <= |n.items|
    decreases n, k
  {
    if k == 0 then [] else PartsTo(n, k - 1) + Parts(n.items[k - 1])
  }

  function Sum(ps: seq<Part>, f: Part -> nat): nat {
    if ps == [] then 0 else Sum(ps[..|ps| - 1], f) + f(ps[|ps| - 1])
  }

  lemma {:induction false} SumAppend(a: seq<Part>, b: seq<Part>, f: Part -> nat)
    ensures Sum(a + b, f) == Sum(a, f) + Sum(b, f)
    decreases |b|
  {
    if b == [] {
      assert a + b == a;
    } else {
      SumAppend(a, b[..|b| - 1], f);
      assert (a + b)[..|a + b| - 1] == a + b[..|b| - 1];
    }
  }

  lemma {:induction false} SumOne(p: Part, f: Part -> nat)
    ensures Sum([p], f) == f(p) && Sum([], f) == 0
  {
    assert [p][..0] == [];
  }

  /** The bytes charged for a part until it is released. */
  function Charge(p: Part, s: Sizes): nat {
    match p
    case ArrayPart(count) => count * s.value
    case BoxPart => s.value
    case TextPart(bytes) => bytes
    case FlagsPart => s.flags
    case OwnPart(_) => s.resource + s.adopted
    case EndPart(_) => s.endpoint
    case RootPart => s.result
  }

  function Bytes(s: Sizes): Part -> nat {
    p => Charge(p, s)
  }

  /** The instance references held for a part: the wrapper of a resource has one
      of its own besides that of its allocation. */
  function Refs(p: Part): nat {
    if p.OwnPart? then 2 else 1
  }

  /** Blocks that staging allocates: strings stay with the source. */
  function Block(p: Part): nat {
    if p.TextPart? then 0 else 1
  }

  /** References that staging takes. */
  function Hold(p: Part): nat {
    if p.OwnPart? || p.EndPart? then 1 else 0
  }

  /** References that are taken for allocations before committing. */
  function Kept(p: Part): nat {
    if p.EndPart? then 0 else 1
  }

  function IsOwn(p: Part): nat {
    if p.OwnPart? then 1 else 0
  }

  /** Charges of endpoints are noted when they are staged, the others at commit. */
  function EndBytes(s: Sizes): Part -> nat {
    (p: Part) => if p.EndPart? then s.endpoint else 0
  }

  function OtherBytes(s: Sizes): Part -> nat {
    (p: Part) => if p.EndPart? then 0 else Charge(p, s)
  }

  lemma {:induction false} SumSplit(ps: seq<Part>, f: Part -> nat, g: Part -> nat, h: Part -> nat)
    requires forall p :: p in ps ==> f(p) == g(p) + h(p)
    ensures Sum(ps, f) == Sum(ps, g) + Sum(ps, h)
  {
    if ps != [] {
      SumSplit(ps[..|ps| - 1], f, g, h);
    }
  }

  // ---------------------------------------------------------------- what is measured

  /** The shape that staging gives a source. */
  function Staged(v: Source): Node
    decreases v, Arity(v) + 1
  {
    match v
    case Text(present, size) => Str(present, size)
    case Items(items) => Array(|items|, StagedTo(v, |items|))
    case Choice(payload) => Box(if payload.None? then None else Some(Staged(payload.value)))
    case FlagWords => Words
    case Owned(h) => Own(h)
    case End(e) => Tip(e)
    case _ => Leaf
  }

  function StagedTo(v: Source, k: nat): (r: seq<Node>)
    requires v.Items? && k <= |v.items|
    ensures |r| == k
    decreases v, k
  {
    if k == 0 then [] else StagedTo(v, k - 1) + [Staged(v.items[k - 1])]
  }

  /** The bytes that `result_storage_size` adds up. */
  function Cost(v: Source, s: Sizes): nat
    decreases v, Arity(v) + 1
  {
    match v
    case Text(present, size) => if present && size == 0 then 1 else size
    case Items(items) => |items| * s.value + CostTo(v, s, |items|)
    case Choice(payload) => if payload.None? then 0 else s.value + Cost(payload.value, s)
    case FlagWords => s.flags
    case Owned(_) => s.resource + s.adopted
    case End(_) => s.endpoint
    case _ => 0
  }

  function CostTo(v: Source, s: Sizes, k: nat): nat
    requires v.Items? && k <= |v.items|
    decreases v, k
  {
    if k == 0 then 0 else CostTo(v, s, k - 1) + Cost(v.items[k - 1], s)
  }

  /** Measuring accepts only strings that have their bytes. */
  predicate Measurable(v: Source)
    decreases v, Arity(v) + 1
  {
    match v
    case Text(present, size) => size != 0 ==> present
    case Items(items) => MeasurableTo(v, |items|)
    case Choice(payload) => payload.Some? ==> Measurable(payload.value)
    case Broken(_) => false
    case _ => true
  }

  predicate MeasurableTo(v: Source, k: nat)
    requires v.Items? && k <= |v.items|
    decreases v, k
  {
    k > 0 ==> MeasurableTo(v, k - 1) && Measurable(v.items[k - 1])
  }

  lemma {:induction false} PartsOfArray(n: Node, m: Node, k: nat)
    requires n.Array? && m.Array? && k <= |n.items| && k <= |m.items| && n.items[..k] == m.items[..k]
    ensures PartsTo(n, k) == PartsTo(m, k)
    decreases k
  {
    if k > 0 {
      assert n.items[..k][..k - 1] == n.items[..k - 1] && m.items[..k][..k - 1] == m.items[..k - 1];
      assert n.items[k - 1] == n.items[..k][k - 1] == m.items[..k][k - 1] == m.items[k - 1];
      PartsOfArray(n, m, k - 1);
    }
  }

  lemma {:induction false} StagedPrefix(v: Source, k: nat, n: nat)
    requires v.Items? && k <= n <= |v.items|
    ensures StagedTo(v, n)[..k] == StagedTo(v, k)
    decreases n
  {
    if k < n {
      StagedPrefix(v, k, n - 1);
    }
  }

  /** What is measured is exactly what the staged tree's parts are charged with. */
  lemma {:induction false} CostIsCharged(v: Source, s: Sizes)
    requires Measurable(v)
    ensures Cost(v, s) == Sum(Parts(Staged(v)), Bytes(s))
    decreases v, Arity(v) + 1
  {
    var f := Bytes(s);
    match v
    case Items(items) =>
      CostToIsCharged(v, s, |items|);
      if items != [] {
        SumOne(ArrayPart(|items|), f);
        SumAppend([ArrayPart(|items|)], PartsTo(Staged(v), |items|), f);
      } else {
        assert Parts(Staged(v)) == [];
      }
    case Choice(payload) =>
      if payload.Some? {
        CostIsCharged(payload.value, s);
        SumOne(BoxPart, f);
        SumAppend([BoxPart], Parts(Staged(payload.value)), f);
      }
    case Text(present, size) =>
      SumOne(TextPart(if size == 0 then 1 else size), f);
    case FlagWords =>
      SumOne(FlagsPart, f);
    case Owned(h) =>
      SumOne(OwnPart(h), f);
    case End(e) =>
      SumOne(EndPart(e), f);
    case _ =>
  }

  lemma {:induction false} CostToIsCharged(v: Source, s: Sizes, k: nat)
    requires v.Items? && k <= |v.items| && MeasurableTo(v, k)
    ensures CostTo(v, s, k) == Sum(PartsTo(Staged(v), k), Bytes(s))
    decreases v, k
  {
    if k > 0 {
      CostToIsCharged(v, s, k - 1);
      CostIsCharged(v.items[k - 1], s);
      StagedPrefix(v, k, |v.items|);
      assert Staged(v).items[k - 1] == StagedTo(v, |v.items|)[..k][k - 1] == Staged(v.items[k - 1]);
      SumAppend(PartsTo(Staged(v), k - 1), Parts(Staged(v.items[k - 1])), Bytes(s));
    }
  }
}
