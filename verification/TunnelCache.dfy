/** Tunnel registries by name: the in-memory one, one that hands out unique record identifiers, and the write-through
    cache in front of either. */
module TunnelCache {
  import opened Prelude

  type Name = string
  type Rid = nat

  // ---- targets ----

  /** A registry's contents. A rid-based one maps names to rids and rids to records; `names` remembers the name each
      rid was issued for. It never expires anything here. */
  datatype Target<T> =
    | InMemory(tunnels: map<Name, T>)
    | RidBased(refs: map<Name, Rid>, entries: map<Rid, T>, names: seq<Name>)

  /** An in-memory identifier is the name itself; a rid-based one carries the rid. */
  datatype Ident = ByName(name: Name) | ByRid(name: Name, rid: Rid)

  function At<K, V>(m: map<K, V>, k: K): Option<V> { if k in m then Some(m[k]) else None }

  function Lookup<T>(t: Target<T>, n: Name): Option<T> {
    match t
    case InMemory(tunnels) => At(tunnels, n)
    case RidBased(refs, entries, _) => if n in refs then At(entries, refs[n]) else None
  }

  function Register<T>(t: Target<T>, n: Name, v: T): (Target<T>, Ident) {
    match t
    case InMemory(tunnels) => (InMemory(tunnels[n := v]), ByName(n))
    case RidBased(refs, entries, names) =>
      (RidBased(refs[n := |names|], entries[|names| := v], names + [n]), ByRid(n, |names|))
  }

  function Deregister<T>(t: Target<T>, n: Name): (Target<T>, Option<T>) {
    match t
    case InMemory(tunnels) => (InMemory(tunnels - {n}), At(tunnels, n))
    case RidBased(refs, entries, names) =>
      if n in refs then (RidBased(refs - {n}, entries - {refs[n]}, names), At(entries, refs[n])) else (t, None)
  }

  /** By rid, the reference key is left behind, dangling. */
  function DeregisterIdent<T>(t: Target<T>, i: Ident): (Target<T>, Option<T>) {
    match (t, i)
    case (InMemory(_), _) => Deregister(t, i.name)
    case (RidBased(refs, entries, names), ByRid(_, rid)) => (RidBased(refs, entries - {rid}, names), At(entries, rid))
    case (RidBased(_, _, _), ByName(_)) => (t, None)
  }

  ghost predicate TargetOk<T>(t: Target<T>) {
    t.RidBased? ==> (forall n :: n in t.refs ==> t.refs[n] < |t.names| && t.names[t.refs[n]] == n)
                    && (forall r :: r in t.entries ==> r < |t.names|)
  }

  // ---- the cache ----

  datatype Cache<R, T> = Cache(a: map<Name, R>, b: Target<T>)

  datatype CacheIdent = CacheIdent(cacheIdent: Name, targetIdent: Ident)

  datatype Codec<!R, !T> = Codec(encode: R -> T, decode: T -> R)

  datatype Op<R> =
    | LookupOp(name: Name)
    | RegisterOp(name: Name, record: R)
    | DeregisterOp(name: Name)
    | DeregisterIdentOp(ident: CacheIdent)

  datatype Answer<R> = Found(record: Option<R>) | Issued(ident: CacheIdent)

  function Map<A, B>(f: A -> B, x: Option<A>): Option<B> { if x.Some? then Some(f(x.value)) else None }

  function OrElse<A>(x: Option<A>, y: Option<A>): Option<A> { if x.Some? then x else y }

  /** One operation through the cache: lookups fill it, registrations write both sides, deregistrations clear both
      and answer from the cache first. */
  function CacheStep<R, T>(k: Codec<R, T>, c: Cache<R, T>, op: Op<R>): (Cache<R, T>, Answer<R>) {
    match op
    case LookupOp(n) =>
      if n in c.a then (c, Found(Some(c.a[n])))
      else (match Lookup(c.b, n)
            case None => (c, Found(None))
            case Some(v) => (Cache(c.a[n := k.decode(v)], c.b), Found(Some(k.decode(v)))))
    case RegisterOp(n, r) =>
      var (b, ident) := Register(c.b, n, k.encode(r));
      (Cache(c.a[n := r], b), Issued(CacheIdent(n, ident)))
    case DeregisterOp(n) =>
      var (b, v) := Deregister(c.b, n);
      (Cache(c.a - {n}, b), Found(OrElse(At(c.a, n), Map(k.decode, v))))
    case DeregisterIdentOp(i) =>
      var (b, v) := DeregisterIdent(c.b, i.targetIdent);
      (Cache(c.a - {i.cacheIdent}, b), Found(OrElse(At(c.a, i.cacheIdent), Map(k.decode, v))))
  }

  /** The same operation on the target alone, answers decoded. */
  function TargetStep<R, T>(k: Codec<R, T>, t: Target<T>, op: Op<R>): (Target<T>, Answer<R>) {
    match op
    case LookupOp(n) => (t, Found(Map(k.decode, Lookup(t, n))))
    case RegisterOp(n, r) => var (b, ident) := Register(t, n, k.encode(r)); (b, Issued(CacheIdent(n, ident)))
    case DeregisterOp(n) => var (b, v) := Deregister(t, n); (b, Found(Map(k.decode, v)))
    case DeregisterIdentOp(i) => var (b, v) := DeregisterIdent(t, i.targetIdent); (b, Found(Map(k.decode, v)))
  }

  ghost predicate Inverse<R(!new), T(!new)>(k: Codec<R, T>) {
    forall r :: k.decode(k.encode(r)) == r
  }

  /** Every cached record is the decoded record a lookup in the target would find. */
  ghost predicate Coherent<R, T>(k: Codec<R, T>, c: Cache<R, T>) {
    TargetOk(c.b) && forall n :: n in c.a ==> Lookup(c.b, n).Some? && c.a[n] == k.decode(Lookup(c.b, n).value)
  }

  /** An identifier handed out before, possibly long stale: by this kind of target, and for that name. */
  predicate WasIssued<T>(t: Target<T>, i: CacheIdent) {
    && i.cacheIdent == i.targetIdent.name
    && (t.InMemory? <==> i.targetIdent.ByName?)
    && (t.RidBased? ==> i.targetIdent.rid < |t.names| && t.names[i.targetIdent.rid] == i.cacheIdent)
  }

  predicate Legal<R, T>(t: Target<T>, op: Op<R>) {
    op.DeregisterIdentOp? ==> WasIssued(t, op.ident)
  }

  lemma CacheStepCoherent<R(!new), T(!new)>(k: Codec<R, T>, c: Cache<R, T>, op: Op<R>)
    requires Inverse(k) && Coherent(k, c) && Legal(c.b, op)
    ensures Coherent(k, CacheStep(k, c, op).0) && CacheStep(k, c, op).0.b == TargetStep(k, c.b, op).0
  {
    match op
    case LookupOp(_) =>
    case RegisterOp(n, r) => RegisterKeepsOthers(c.b, n, k.encode(r));
    case DeregisterOp(n) => DeregisterKeepsOthers(c.b, n);
    case DeregisterIdentOp(i) => IdentKeepsOthers(c.b, i);
  }

  lemma RegisterKeepsOthers<T>(t: Target<T>, n: Name, v: T)
    requires TargetOk(t)
    ensures TargetOk(Register(t, n, v).0)
    ensures forall m :: Lookup(Register(t, n, v).0, m) == if m == n then Some(v) else Lookup(t, m)
  {
  }

  lemma DeregisterKeepsOthers<T>(t: Target<T>, n: Name)
    requires TargetOk(t)
    ensures TargetOk(Deregister(t, n).0)
    ensures forall m :: m != n ==> Lookup(Deregister(t, n).0, m) == Lookup(t, m)
  {
  }

  /** Deregistering an identifier changes what no other name refers to. */
  lemma IdentKeepsOthers<T>(t: Target<T>, i: CacheIdent)
    requires TargetOk(t) && WasIssued(t, i)
    ensures TargetOk(DeregisterIdent(t, i.targetIdent).0)
    ensures forall n :: n != i.cacheIdent ==> Lookup(DeregisterIdent(t, i.targetIdent).0, n) == Lookup(t, n)
  {
  }

  /** After a deregistration by name the name is gone, and the answer is what it held. */
  lemma DeregisterRemoves<T>(t: Target<T>, n: Name)
    requires TargetOk(t)
    ensures Lookup(Deregister(t, n).0, n) == None && Deregister(t, n).1 == Lookup(t, n)
    ensures t.RidBased? && n in t.refs ==> t.refs[n] !in Deregister(t, n).0.entries
  {
  }

  /** After a deregistration by identifier the record it was issued for is gone, and the answer is that record; in
      memory that is whatever the name holds. */
  lemma DeregisterIdentRemoves<T>(t: Target<T>, i: CacheIdent)
    requires TargetOk(t) && WasIssued(t, i)
    ensures t.RidBased? ==>
              && i.targetIdent.rid !in DeregisterIdent(t, i.targetIdent).0.entries
              && DeregisterIdent(t, i.targetIdent).1 == At(t.entries, i.targetIdent.rid)
    ensures t.InMemory? ==>
              && Lookup(DeregisterIdent(t, i.targetIdent).0, i.cacheIdent) == None
              && DeregisterIdent(t, i.targetIdent).1 == Lookup(t, i.cacheIdent)
    ensures t.RidBased? && Current(t, i) ==> Lookup(DeregisterIdent(t, i.targetIdent).0, i.cacheIdent) == None
  {
  }

  /** A registration hands out an identifier of its own: issued for the name and, rid-based, current and never used. */
  lemma RegisterIssues<T>(t: Target<T>, n: Name, v: T)
    requires TargetOk(t)
    ensures var (u, i) := Register(t, n, v);
            && WasIssued(u, CacheIdent(n, i))
            && (t.RidBased? ==> Current(u, CacheIdent(n, i)) && !WasIssued(t, CacheIdent(n, i)) && i.rid !in t.entries)
            && DeregisterIdent(u, i).1 == Some(v)
  {
  }

  /** What an operation leaves in the cache: a record found or registered is cached, a deregistered name is not. */
  lemma CacheHolds<R(!new), T(!new)>(k: Codec<R, T>, c: Cache<R, T>, op: Op<R>)
    requires Inverse(k) && Coherent(k, c) && Legal(c.b, op)
    ensures var d := CacheStep(k, c, op).0;
            match op
            case LookupOp(n) => At(d.a, n) == Map(k.decode, Lookup(c.b, n))
            case RegisterOp(n, r) => At(d.a, n) == Some(r)
            case DeregisterOp(n) => n !in d.a && Lookup(d.b, n) == None
            case DeregisterIdentOp(i) => i.cacheIdent !in d.a
  {
    if op.DeregisterOp? { DeregisterRemoves(c.b, op.name); }
  }

  /** A rid-based identifier is current while its name refers to its rid. */
  predicate Current<T>(t: Target<T>, i: CacheIdent)
    requires t.RidBased? && WasIssued(t, i)
  {
    i.cacheIdent in t.refs && t.refs[i.cacheIdent] == i.targetIdent.rid
  }

  /** A stale identifier, its name cached again: the one case in which the cache may speak for somebody else. */
  predicate Overtaken<R, T>(c: Cache<R, T>, op: Op<R>)
    requires Legal(c.b, op)
  {
    op.DeregisterIdentOp? && c.b.RidBased? && op.ident.cacheIdent in c.a && !Current(c.b, op.ident)
  }

  /** Through the cache every answer is the target's own, unless an overtaken identifier is deregistered. */
  lemma CacheStepAnswers<R(!new), T(!new)>(k: Codec<R, T>, c: Cache<R, T>, op: Op<R>)
    requires Inverse(k) && Coherent(k, c) && Legal(c.b, op) && !Overtaken(c, op)
    ensures CacheStep(k, c, op).1 == TargetStep(k, c.b, op).1
  {
  }

  /** Then the cache answers with the current holder's record, the target with the identifier's own, if it still has
      it; the holder's registration is untouched either way, and no longer cached. */
  lemma OvertakenAnswers<R(!new), T(!new)>(k: Codec<R, T>, c: Cache<R, T>, op: Op<R>)
    requires Coherent(k, c) && Legal(c.b, op) && Overtaken(c, op)
    ensures var n, rid := op.ident.cacheIdent, op.ident.targetIdent.rid;
            && n in c.b.refs && c.b.refs[n] in c.b.entries && c.b.refs[n] != rid
            && CacheStep(k, c, op).1 == Found(Some(k.decode(c.b.entries[c.b.refs[n]])))
            && TargetStep(k, c.b, op).1 == Found(Map(k.decode, At(c.b.entries, rid)))
            && Lookup(CacheStep(k, c, op).0.b, n) == Lookup(c.b, n) && n !in CacheStep(k, c, op).0.a
  {
  }

  // ---- whole sequences of operations ----

  predicate LegalRun<R, T>(k: Codec<R, T>, t: Target<T>, ops: seq<Op<R>>)
    decreases |ops|
  {
    ops == [] || (Legal(t, ops[0]) && LegalRun(k, TargetStep(k, t, ops[0]).0, ops[1..]))
  }

  function CacheRun<R, T>(k: Codec<R, T>, c: Cache<R, T>, ops: seq<Op<R>>): (Cache<R, T>, seq<Answer<R>>)
    decreases |ops|
  {
    if ops == [] then (c, []) else
    var (c1, x) := CacheStep(k, c, ops[0]);
    var (c2, xs) := CacheRun(k, c1, ops[1..]);
    (c2, [x] + xs)
  }

  function TargetRun<R, T>(k: Codec<R, T>, t: Target<T>, ops: seq<Op<R>>): (Target<T>, seq<Answer<R>>)
    decreases |ops|
  {
    if ops == [] then (t, []) else
    var (t1, x) := TargetStep(k, t, ops[0]);
    var (t2, xs) := TargetRun(k, t1, ops[1..]);
    (t2, [x] + xs)
  }

  /** The cache and its target just before the operation at `i`. */
  function CacheAt<R, T>(k: Codec<R, T>, c: Cache<R, T>, ops: seq<Op<R>>, i: nat): Cache<R, T>
    requires i <= |ops|
    decreases i
  {
    if i == 0 then c else CacheAt(k, CacheStep(k, c, ops[0]).0, ops[1..], i - 1)
  }

  /** For every sequence of operations: the cache stays coherent, the target goes through the same states as without
      a cache, and every answer is the target's own, except to the deregistration of an identifier that has been
      overtaken by a newer registration of its name which is cached. In particular no lookup is ever stale, and
      current identifiers are always answered as by the target. */
  lemma {:induction false} CacheRefinesTarget<R(!new), T(!new)>(k: Codec<R, T>, c: Cache<R, T>, ops: seq<Op<R>>, i: nat)
    requires Inverse(k) && Coherent(k, c) && LegalRun(k, c.b, ops)
    ensures Coherent(k, CacheRun(k, c, ops).0) && CacheRun(k, c, ops).0.b == TargetRun(k, c.b, ops).0
    ensures |CacheRun(k, c, ops).1| == |TargetRun(k, c.b, ops).1| == |ops|
    ensures i < |ops| ==> Coherent(k, CacheAt(k, c, ops, i)) && Legal(CacheAt(k, c, ops, i).b, ops[i])
    ensures i < |ops| && !Overtaken(CacheAt(k, c, ops, i), ops[i]) ==>
              CacheRun(k, c, ops).1[i] == TargetRun(k, c.b, ops).1[i]
    decreases |ops|
  {
    if ops != [] {
      CacheStepCoherent(k, c, ops[0]);
      if !Overtaken(c, ops[0]) { CacheStepAnswers(k, c, ops[0]); }
      CacheRefinesTarget(k, CacheStep(k, c, ops[0]).0, ops[1..], if i == 0 then 0 else i - 1);
    }
  }

  lemma {:induction false} KindStays<R, T>(k: Codec<R, T>, c: Cache<R, T>, ops: seq<Op<R>>, i: nat)
    requires i <= |ops|
    ensures CacheAt(k, c, ops, i).b.InMemory? == c.b.InMemory?
    decreases i
  {
    if i > 0 { KindStays(k, CacheStep(k, c, ops[0]).0, ops[1..], i - 1); }
  }

  /** Over an in-memory target the cache is indistinguishable from the target. */
  lemma CacheTransparent<R(!new), T(!new)>(k: Codec<R, T>, c: Cache<R, T>, ops: seq<Op<R>>)
    requires Inverse(k) && Coherent(k, c) && LegalRun(k, c.b, ops) && c.b.InMemory?
    ensures CacheRun(k, c, ops).1 == TargetRun(k, c.b, ops).1
  {
    CacheRefinesTarget(k, c, ops, 0);
    forall i: nat | i < |ops| ensures CacheRun(k, c, ops).1[i] == TargetRun(k, c.b, ops).1[i] {
      CacheRefinesTarget(k, c, ops, i);
      KindStays(k, c, ops, i);
    }
  }

  /** The exception is real: registering a name twice and deregistering the first identifier answers with the newer
      record through the cache, with the older one from the target; the newer registration survives either way. */
  lemma StaleIdentifierAnswers()
    ensures var k, c := Codec((r: int) => r, (t: int) => t), Cache(map[], RidBased(map[], map[], []));
            var stale := DeregisterIdentOp(CacheIdent("n", ByRid("n", 0)));
            var ops := [RegisterOp("n", 1), RegisterOp("n", 2), stale, LookupOp("n")];
            && LegalRun(k, c.b, ops)
            && CacheRun(k, c, ops).1[2] == Found(Some(2)) && TargetRun(k, c.b, ops).1[2] == Found(Some(1))
            && CacheRun(k, c, ops).1[3] == Found(Some(2)) && TargetRun(k, c.b, ops).1[3] == Found(Some(2))
  {
    var k, c := Codec((r: int) => r, (t: int) => t), Cache(map[], RidBased(map[], map[], []));
    var o0, o1, o3 := RegisterOp("n", 1), RegisterOp("n", 2), LookupOp("n");
    var o2 := DeregisterIdentOp(CacheIdent("n", ByRid("n", 0)));
    var ops := [o0, o1, o2, o3];
    assert ops[1..] == [o1, o2, o3] && [o1, o2, o3][1..] == [o2, o3] && [o2, o3][1..] == [o3] && [o3][1..] == [];
    var c1 := CacheStep(k, c, o0).0;
    var c2 := CacheStep(k, c1, o1).0;
    var c3 := CacheStep(k, c2, o2).0;
    assert LegalRun(k, c3.b, [o3]) && LegalRun(k, c2.b, [o2, o3]) && LegalRun(k, c1.b, [o1, o2, o3]);
    assert CacheRun(k, c3, [o3]).1 == [Found(Some(2))];
    assert CacheRun(k, c2, [o2, o3]).1 == [Found(Some(2)), Found(Some(2))];
    assert TargetRun(k, c3.b, [o3]).1 == [Found(Some(2))];
    assert TargetRun(k, c2.b, [o2, o3]).1 == [Found(Some(1)), Found(Some(2))];
  }

  // ---- the registries as objects ----

  class InMemoryTunnelRegistry<R> {
    var tunnels: map<Name, R>

    constructor ()
      ensures tunnels == map[]
    {
      tunnels := map[];
    }

    method LookupRecord(n: Name) returns (r: Option<R>)
      ensures r == Lookup(InMemory(tunnels), n)
    {
      if n in tunnels { r := Some(tunnels[n]); } else { r := None; }
    }

    method RegisterRecord(n: Name, record: R) returns (ident: Name)
      modifies this
      ensures (InMemory(tunnels), ByName(ident)) == Register(InMemory(old(tunnels)), n, record)
    {
      ident := n;
      tunnels := tunnels[n := record];
    }

    method DeregisterRecord(n: Name) returns (r: Option<R>)
      modifies this
      ensures (InMemory(tunnels), r) == Deregister(InMemory(old(tunnels)), n)
    {
      if n in tunnels { r := Some(tunnels[n]); } else { r := None; }
      tunnels := tunnels - {n};
    }
  }

  /** The cache over an in-memory target; each method is one operation of the model. */
  class WriteThroughCache<R, T> {
    const k: Codec<R, T>
    const a: InMemoryTunnelRegistry<R>
    const b: InMemoryTunnelRegistry<T>

    constructor (k: Codec<R, T>, cache: InMemoryTunnelRegistry<R>, target: InMemoryTunnelRegistry<T>)
      ensures this.k == k && a == cache && b == target
    {
      this.k, a, b := k, cache, target;
    }

    ghost function Contents(): Cache<R, T>
      reads a, b
    {
      Cache(a.tunnels, InMemory(b.tunnels))
    }

    method LookupRecord(n: Name) returns (r: Option<R>)
      requires a as object != b
      modifies a
      ensures (Contents(), Found(r)) == CacheStep(k, old(Contents()), LookupOp(n))
    {
      r := a.LookupRecord(n);
      if r.None? {
        var v := b.LookupRecord(n);
        if v.Some? {
          r := Some(k.decode(v.value));
          var _ := a.RegisterRecord(n, r.value);
        }
      }
    }

    method RegisterRecord(n: Name, record: R) returns (ident: CacheIdent)
      requires a as object != b
      modifies a, b
      ensures (Contents(), Issued(ident)) == CacheStep(k, old(Contents()), RegisterOp(n, record))
    {
      var x := a.RegisterRecord(n, record);
      var y := b.RegisterRecord(n, k.encode(record));
      ident := CacheIdent(x, ByName(y));
    }

    method DeregisterRecord(n: Name) returns (r: Option<R>)
      requires a as object != b
      modifies a, b
      ensures (Contents(), Found(r)) == CacheStep(k, old(Contents()), DeregisterOp(n))
    {
      var x := a.DeregisterRecord(n);
      var y := b.DeregisterRecord(n);
      r := if x.Some? then x else if y.Some? then Some(k.decode(y.value)) else None;
    }

    method DeregisterIdentifier(ident: CacheIdent) returns (r: Option<R>)
      requires a as object != b
      modifies a, b
      ensures (Contents(), Found(r)) == CacheStep(k, old(Contents()), DeregisterIdentOp(ident))
    {
      var x := a.DeregisterRecord(ident.cacheIdent);
      var y := b.DeregisterRecord(ident.targetIdent.name);
      r := if x.Some? then x else if y.Some? then Some(k.decode(y.value)) else None;
    }
  }
}
