/** The list that owns all sockets and buffers: a live list plus a capped pool of
    erased nodes that later creations reuse. */
module RecyclableList {
  import opened SocketTypes

  ghost predicate NoDup<T>(s: seq<T>) {
    forall i, j :: 0 <= i < j < |s| ==> s[i] != s[j]
  }

  function Without<T(==)>(s: seq<T>, x: T): seq<T> {
    if s == [] then [] else if s[0] == x then s[1..] else [s[0]] + Without(s[1..], x)
  }

  lemma {:induction false} WithoutMembers<T>(s: seq<T>, x: T)
    requires NoDup(s)
    ensures NoDup(Without(s, x))
    ensures forall y :: y in Without(s, x) <==> y in s && y != x
    ensures |Without(s, x)| == |s| - (if x in s then 1 else 0)
  {
    if s != [] {
      WithoutMembers(s[1..], x);
      assert s == [s[0]] + s[1..];
      if s[0] != x {
        var r := Without(s[1..], x);
        assert Without(s, x) == [s[0]] + r;
        assert s[0] !in s[1..];
        assert s[0] !in r;
      }
    }
  }

  lemma {:induction false} WithoutIsCut<T>(s: seq<T>, k: nat)
    requires NoDup(s) && k < |s|
    ensures Without(s, s[k]) == s[..k] + s[k + 1..]
  {
    if k > 0 {
      WithoutIsCut(s[1..], k - 1);
      assert s[0] != s[k];
      assert s == [s[0]] + s[1..];
      assert s[1..][k - 1] == s[k];
      assert s[1..][..k - 1] == s[1..k];
      assert s[1..][k..] == s[k + 1..];
      assert [s[0]] + s[1..k] == s[..k];
    }
  }

  /** The value of a recyclable list: node order of the live list and of the pool,
      the memory of every allocated node, and each element's stored iterator. */
  datatype Recycler<T> = Recycler(cap: nat, live: seq<Node>, pool: seq<Node>,
                                  mem: map<Node, T>, it: map<Node, Node>, next: Node)
  {
    ghost predicate Valid() {
      && NoDup(live) && NoDup(pool)
      && (forall n :: n in live ==> n !in pool)
      && (forall n :: n in mem <==> n in live || n in pool)
      && (forall i :: 0 <= i < |live| ==> live[i] in mem)
      && (forall n :: n in live ==> n in it && it[n] == n)
      && (forall n :: n in mem ==> n < next)
      && |pool| <= cap
    }

    /** The node the next creation uses. */
    function Slot(): Node { if pool == [] then next else pool[0] }

    /** `ListElt::Create`: splice or allocate, assign, and store the iterator. */
    function Create(elt: T, assign: (T, T) -> T): Recycler<T> {
      if pool == [] then
        this.(live := live + [next], mem := mem[next := elt], it := it[next := next], next := next + 1)
      else
        var n := pool[0];
        this.(live := live + [n], pool := pool[1..],
              mem := mem[n := if n in mem then assign(mem[n], elt) else elt], it := it[n := n])
    }

    /** `ListElt::Delete`: splice to the pool, or free when the pool is full. */
    function Erase(n: Node): Recycler<T> {
      var i := if n in it then it[n] else n;
      if |pool| >= cap then
        this.(live := Without(live, i), mem := mem - {i})
      else
        this.(live := Without(live, i), pool := pool + [i])
    }

    function Write(n: Node, elt: T): Recycler<T> { this.(mem := mem[n := elt]) }
  }

  function Empty<T>(cap: nat): Recycler<T> { Recycler(cap, [], [], map[], map[], 0) }

  lemma {:induction false} AppendNoDup<T>(s: seq<T>, x: T)
    requires NoDup(s)
    ensures x !in s ==> NoDup(s + [x])
    ensures forall y :: y in s + [x] <==> y in s || y == x
  {
  }

  /** A creation adds one node at the end, keeps every other live node in place with
      its contents, and its node was not live. */
  lemma {:induction false} CreateKeeps<T>(l: Recycler<T>, elt: T, assign: (T, T) -> T)
    requires l.Valid()
    ensures l.Create(elt, assign).Valid()
    ensures l.Slot() !in l.live
    ensures l.Create(elt, assign).live == l.live + [l.Slot()]
    ensures forall n :: n in l.Create(elt, assign).mem <==> n in l.mem || n == l.Slot()
    ensures forall n :: n in l.mem && n != l.Slot() ==> l.Create(elt, assign).mem[n] == l.mem[n]
    ensures forall n :: n in l.Create(elt, assign).pool ==> n in l.pool
    ensures |l.Create(elt, assign).live| + |l.Create(elt, assign).pool|
         == if l.pool == [] then |l.live| + 1 else |l.live| + |l.pool|
  {
    var r := l.Create(elt, assign);
    AppendNoDup(l.live, l.Slot());
    if l.pool != [] {
      assert l.pool == [l.pool[0]] + l.pool[1..];
      assert forall n :: n in l.pool <==> n == l.pool[0] || n in r.pool;
      assert l.pool[0] !in r.pool;
    }
  }

  /** Erasing a live node removes it from the live list only, keeps the order of
      the others, and leaves every other node's memory as it was. */
  lemma {:induction false} EraseKeeps<T>(l: Recycler<T>, n: Node)
    requires l.Valid() && n in l.live
    ensures l.Erase(n).Valid()
    ensures l.Erase(n).live == Without(l.live, n)
    ensures forall m :: m in l.Erase(n).live <==> m in l.live && m != n
    ensures |l.Erase(n).live| == |l.live| - 1
    ensures forall m :: m in l.mem && m != n ==> m in l.Erase(n).mem
    ensures forall m :: m in l.Erase(n).mem ==> m in l.mem && l.Erase(n).mem[m] == l.mem[m]
    ensures forall m :: m in l.Erase(n).pool ==> m in l.pool || m == n
    ensures |l.Erase(n).live| + |l.Erase(n).pool| <= |l.live| + |l.pool|
  {
    WithoutMembers(l.live, n);
    AppendNoDup(l.pool, n);
  }

  /** One call on the list: create an element, or erase the k-th live one. */
  datatype Call<T> = DoCreate(elt: T) | DoErase(k: nat)

  function Apply<T>(l: Recycler<T>, c: Call<T>, assign: (T, T) -> T): Recycler<T> {
    match c
    case DoCreate(e) => l.Create(e, assign)
    case DoErase(k) => if k < |l.live| then l.Erase(l.live[k]) else l
  }

  function Run<T>(l: Recycler<T>, cs: seq<Call<T>>, assign: (T, T) -> T): Recycler<T>
    decreases |cs|
  {
    if cs == [] then l else Apply(Run(l, cs[..|cs| - 1], assign), cs[|cs| - 1], assign)
  }

  /** The plain list the recycler stands for. */
  function PlainRun<T, U>(start: seq<U>, cs: seq<Call<T>>, view: T -> U): seq<U>
    decreases |cs|
  {
    if cs == [] then start
    else
      var s := PlainRun(start, cs[..|cs| - 1], view);
      match cs[|cs| - 1]
      case DoCreate(e) => s + [view(e)]
      case DoErase(k) => if k < |s| then s[..k] + s[k + 1..] else s
  }

  /** The largest number of live elements the run ever had. */
  function Peak<T>(l: Recycler<T>, cs: seq<Call<T>>, assign: (T, T) -> T): nat
    decreases |cs|
  {
    var now := |Run(l, cs, assign).live|;
    if cs == [] then now
    else
      var before := Peak(l, cs[..|cs| - 1], assign);
      if now > before then now else before
  }

  /** The elements in `nodes` as seen through `view`, in order. */
  function Seen<T, U>(nodes: seq<Node>, mem: map<Node, T>, view: T -> U): (r: seq<U>)
    requires forall i :: 0 <= i < |nodes| ==> nodes[i] in mem
    ensures |r| == |nodes| && forall i :: 0 <= i < |r| ==> r[i] == view(mem[nodes[i]])
  {
    if nodes == [] then []
    else
      [view(mem[nodes[0]])] + Seen(nodes[1..], mem, view)
  }

  lemma {:induction false} SeenCreate<T, U>(l: Recycler<T>, elt: T, assign: (T, T) -> T, view: T -> U)
    requires l.Valid() && l.Create(elt, assign).Valid()
    requires forall a, b :: view(assign(a, b)) == view(b)
    ensures var r := l.Create(elt, assign);
            Seen(r.live, r.mem, view) == Seen(l.live, l.mem, view) + [view(elt)]
  {
    CreateKeeps(l, elt, assign);
    var r := l.Create(elt, assign);
    if l.pool != [] {
      assert l.pool[0] in l.pool;
      assert r.mem[l.Slot()] == assign(l.mem[l.Slot()], elt);
    }
    assert r.live[|l.live|] == l.Slot();
  }

  lemma {:induction false} SeenErase<T, U>(l: Recycler<T>, k: nat, view: T -> U)
    requires l.Valid() && k < |l.live| && l.Erase(l.live[k]).Valid()
    ensures var r := l.Erase(l.live[k]);
            var seen := Seen(l.live, l.mem, view);
            Seen(r.live, r.mem, view) == seen[..k] + seen[k + 1..]
  {
    var r := l.Erase(l.live[k]);
    EraseKeeps(l, l.live[k]);
    WithoutIsCut(l.live, k);
    SeenCut(l.live, l.mem, r.live, r.mem, k, view);
  }

  lemma {:induction false} SeenCut<T,
      U>(s: seq<Node>, m: map<Node, T>, s': seq<Node>, m': map<Node, T>, k: nat, view: T -> U)
    requires k < |s| && s' == s[..k] + s[k + 1..]
    requires forall i :: 0 <= i < |s| ==> s[i] in m
    requires forall i :: 0 <= i < |s'| ==> s'[i] in m' && s'[i] in m && m'[s'[i]] == m[s'[i]]
    ensures Seen(s', m', view) == Seen(s, m, view)[..k] + Seen(s, m, view)[k + 1..]
  {
    var a, b := Seen(s', m', view), Seen(s, m, view);
    forall i | 0 <= i < |a|
      ensures a[i] == (b[..k] + b[k + 1..])[i]
    {
      assert s'[i] in s' && s'[i] == if i < k then s[i] else s[i + 1];
    }
  }

  /** Over any run the recycler shows exactly the elements of a plain list, in creation
      order, through every view of an element that assignment overwrites completely. */
  lemma {:induction false} RefinesPlainList<T, U>(cap: nat, cs: seq<Call<T>>, assign: (T, T) -> T, view: T -> U)
    requires forall a, b :: view(assign(a, b)) == view(b)
    ensures var l := Run(Empty(cap), cs, assign);
            l.Valid() && l.cap == cap && Seen(l.live, l.mem, view) == PlainRun([], cs, view)
    decreases |cs|
  {
    if cs != [] {
      RefinesPlainList(cap, cs[..|cs| - 1], assign, view);
      var l := Run(Empty(cap), cs[..|cs| - 1], assign);
      match cs[|cs| - 1] {
        case DoCreate(e) =>
          CreateKeeps(l, e, assign);
          SeenCreate(l, e, assign, view);
        case DoErase(k) =>
          if k < |l.live| {
            EraseKeeps(l, l.live[k]);
            SeenErase(l, k, view);
          }
      }
    }
  }

  /** The pool stays within its cap, and no more nodes exist than were once live together. */
  lemma {:induction false} MemoryIsBoundedByPeak<T>(cap: nat, cs: seq<Call<T>>, assign: (T, T) -> T)
    ensures var l := Run(Empty(cap), cs, assign);
            && l.Valid() && |l.pool| <= cap
            && |l.live| + |l.pool| <= Peak(Empty(cap), cs, assign)
    decreases |cs|
  {
    if cs != [] {
      MemoryIsBoundedByPeak(cap, cs[..|cs| - 1], assign);
      var l := Run(Empty(cap), cs[..|cs| - 1], assign);
      RunCap(cap, cs, assign);
      match cs[|cs| - 1] {
        case DoCreate(e) => CreateKeeps(l, e, assign);
        case DoErase(k) => if k < |l.live| { EraseKeeps(l, l.live[k]); }
      }
    }
  }

  lemma {:induction false} RunCap<T>(cap: nat, cs: seq<Call<T>>, assign: (T, T) -> T)
    ensures Run(Empty(cap), cs, assign).cap == cap
    decreases |cs|
  {
    if cs != [] {
      RunCap(cap, cs[..|cs| - 1], assign);
    }
  }

  /** A live node stays where it is, with its contents, through any run that does not erase it:
      pointers to live elements never move. */
  lemma {:induction false} LiveNodesAreStable<T>(l: Recycler<T>, cs: seq<Call<T>>, assign: (T, T) -> T, n: Node)
    requires l.Valid() && n in l.live
    requires forall i :: 0 <= i < |cs| && cs[i].DoErase? && cs[i].k < |Run(l, cs[..i], assign).live|
                         ==> Run(l, cs[..i], assign).live[cs[i].k] != n
    ensures var r := Run(l, cs, assign);
            r.Valid() && n in r.live && r.mem[n] == l.mem[n] && r.it[n] == n
    decreases |cs|
  {
    if cs != [] {
      var front := cs[..|cs| - 1];
      forall i | 0 <= i < |front|
        ensures front[i] == cs[i] && front[..i] == cs[..i]
      {
      }
      LiveNodesAreStable(l, front, assign, n);
      var r := Run(l, front, assign);
      var c := cs[|cs| - 1];
      assert cs[..|cs| - 1] == front;
      match c {
        case DoCreate(e) => CreateKeeps(r, e, assign);
        case DoErase(k) => if k < |r.live| { EraseKeeps(r, r.live[k]); }
      }
    }
  }

  /** What clearing leaves: nodes go to the pool in list order until it is full. */
  function Cleared<T>(l: Recycler<T>): Recycler<T>
    decreases |l.live|
  {
    if l.live == [] then l
    else
      var n := l.live[0];
      var r := l.Erase(n);
      if |r.live| < |l.live| then Cleared(r) else r
  }

  function Filled<T>(pool: seq<T>, live: seq<T>, cap: nat): seq<T>
    requires |pool| <= cap
  {
    var room := cap - |pool|;
    pool + if |live| <= room then live else live[..room]
  }

  lemma {:induction false} ClearedIsEmpty<T>(l: Recycler<T>)
    requires l.Valid()
    ensures Cleared(l).Valid() && Cleared(l).live == []
    ensures Cleared(l).pool == Filled(l.pool, l.live, l.cap)
    decreases |l.live|
  {
    if l.live != [] {
      var n := l.live[0];
      var r := l.Erase(n);
      EraseKeeps(l, n);
      WithoutIsCut(l.live, 0);
      assert r.live == l.live[1..];
      ClearedIsEmpty(r);
      FillOneMore(l.pool, l.live, l.cap);
    }
  }

  lemma {:induction false} FillOneMore<T>(pool: seq<T>, live: seq<T>, cap: nat)
    requires |pool| <= cap && live != []
    ensures var pool' := if |pool| >= cap then pool else pool + [live[0]];
            Filled(pool', live[1..], cap) == Filled(pool, live, cap)
  {
    if |pool| < cap {
      var room := cap - |pool|;
      assert if |live| <= room then pool + [live[0]] + live[1..] == pool + live
             else pool + [live[0]] + live[1..][..room - 1] == pool + live[..room];
    } else {
      assert live[1..][..0] == [] == live[..0];
    }
  }

  /** The list object itself. */
  class CriticalRecyclableList<T> {
    const maxRecycledSize: nat
    const assign: (T, T) -> T
    var recycleList: seq<Node>
    var list: seq<Node>
    var mem: map<Node, T>
    var it: map<Node, Node>
    var next: Node

    function Model(): Recycler<T>
      reads this
    {
      Recycler(maxRecycledSize, list, recycleList, mem, it, next)
    }

    constructor (s: nat, assign: (T, T) -> T)
      ensures Model() == Empty(s) && this.assign == assign
    {
      maxRecycledSize := s;
      this.assign := assign;
      recycleList, list, mem, it, next := [], [], map[], map[], 0;
    }

    /** `create`: reuse the oldest pooled node, or allocate one. */
    method Create(elt: T) returns (newEltIt: Node)
      modifies this
      ensures newEltIt == old(Model().Slot())
      ensures Model() == old(Model()).Create(elt, assign)
    {
      if recycleList == [] {
        newEltIt := next;
        next := next + 1;
        mem := mem[newEltIt := elt];
        list := list + [newEltIt];
      } else {
        newEltIt := recycleList[0];
        recycleList := recycleList[1..];
        list := list + [newEltIt];
        mem := mem[newEltIt := if newEltIt in mem then assign(mem[newEltIt], elt) else elt];
      }
      it := it[newEltIt := newEltIt];
    }

    /** `Delete`: erase through the iterator the element stores. */
    method Delete(obj: Node)
      modifies this
      ensures Model() == old(Model()).Erase(obj)
    {
      var i := if obj in it then it[obj] else obj;
      if |recycleList| >= maxRecycledSize {
        mem := mem - {i};
      } else {
        recycleList := recycleList + [i];
      }
      list := Without(list, i);
    }

    method Write(n: Node, elt: T)
      modifies this`mem
      ensures Model() == old(Model()).Write(n, elt)
    {
      mem := mem[n := elt];
    }

    /** `ClearList`: delete the front element until none is left. */
    method ClearList()
      requires Model().Valid()
      modifies this
      ensures Model().Valid() && list == []
      ensures recycleList == Filled(old(recycleList), old(list), maxRecycledSize)
    {
      while list != []
        invariant Model().Valid()
        invariant Cleared(Model()) == Cleared(old(Model()))
        decreases |list|
      {
        EraseKeeps(Model(), list[0]);
        Delete(list[0]);
      }
      ClearedIsEmpty(old(Model()));
    }
  }
}
