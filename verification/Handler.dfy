// Code that runs against a store: ante handlers, message handlers, block hooks and queriers.
// A program decides its next store access from the replies so far, so theorems that quantify over
// programs quantify over all handler code. It may open caches on top of the store it was given
// (Context.CacheContext), write them back or drop them.

module Handler {
  import opened Bytes
  import opened CacheKV
  import opened MergeIterator

  datatype Action =
    | Get(key: Key) | Has(key: Key)
    | Set(key: Key, value: Value) | Delete(key: Key)
    | Iterate(start: Key, end: Option<Key>, asc: bool)
    | CacheWrap | Write | Discard
    | Return(ok: bool, meter: nat) | Panic

  datatype Reply = Got(value: Option<Value>) | Found(found: bool) | Listed(pairs: seq<Pair>) | Done

  // Every store access costs gas, so a run is finite; `limit` accesses without an end are a panic.
  datatype Program = Program(next: seq<Reply> -> Action, limit: nat)

  // Code that returns leaves a reading on the gas meter of its context.
  datatype Outcome = Returned(ok: bool, meter: nat) | Panicked

  predicate Succeeded(o: Outcome) {
    o.Returned? && o.ok
  }

  function MeterAfter(o: Outcome, meter: nat): nat {
    if o.Returned? then o.meter else meter
  }

  // ---------- Plain-map semantics ----------

  // The contents of the caches the code has opened, the given store first.
  type Views = vs: seq<View> | vs != [] witness [map[]]

  function Top(vs: Views): View {
    vs[|vs| - 1]
  }

  function WithTop(vs: Views, m: View): Views {
    vs[|vs| - 1 := m]
  }

  ghost function Range(m: View, start: Key, end: Option<Key>, asc: bool): seq<Pair> {
    if ps :| Enumerates(ps, m, start, end, asc) then ps else []
  }

  lemma RangeIs(ps: seq<Pair>, m: View, start: Key, end: Option<Key>, asc: bool)
    requires Enumerates(ps, m, start, end, asc)
    ensures Range(m, start, end, asc) == ps
  {
    var qs := Range(m, start, end, asc);
    forall k ensures Find(ps, k) == Find(qs, k) {
      assert Find(ps, k) == if InDomain(k, start, end) then Lookup(m, k) else None;
    }
    EnumerationUnique(asc, ps, qs);
  }

  ghost function StepReply(m: View, a: Action): Reply {
    match a
    case Get(k) => Got(Lookup(m, k))
    case Has(k) => Found(k in m)
    case Iterate(start, end, asc) => Listed(Range(m, start, end, asc))
    case _ => Done
  }

  function StepViews(vs: Views, a: Action): Views {
    match a
    case Set(k, v) => WithTop(vs, Top(vs)[k := v])
    case Delete(k) => WithTop(vs, Top(vs) - {k})
    case CacheWrap => vs + [Top(vs)]
    case Write => if |vs| == 1 then vs else vs[|vs| - 2 := Top(vs)]
    case Discard => if |vs| == 1 then vs else vs[..|vs| - 1]
    case _ => vs
  }

  // What code may rely on: it reads what it wrote, sees everything else as it was, and a cache it opens
  // shows the same until it writes it back or drops it.
  lemma StoreLaws(vs: Views, k: Key, v: Value, x: Key)
    ensures StepReply(Top(vs), Get(x)) == Got(if x in Top(vs) then Some(Top(vs)[x]) else None)
    ensures StepReply(Top(StepViews(vs, Set(k, v))), Get(x)) == if x == k then Got(Some(v)) else StepReply(Top(vs), Get(x))
    ensures StepReply(Top(StepViews(vs, Delete(k))), Get(x)) == if x == k then Got(None) else StepReply(Top(vs), Get(x))
    ensures StepReply(Top(vs), Has(x)) == Found(StepReply(Top(vs), Get(x)) != Got(None))
    ensures var inner := StepViews(vs, CacheWrap); var changed := StepViews(inner, Set(k, v));
            Top(inner) == Top(vs) && StepViews(changed, Discard) == vs &&
            StepViews(StepViews(changed, Write), Discard) == StepViews(vs, Set(k, v))
  {}

  ghost function ExecFrom(next: seq<Reply> -> Action, replies: seq<Reply>, vs: Views, limit: nat): (Outcome, View)
    decreases limit
  {
    var a := next(replies);
    if a.Return? then (Returned(a.ok, a.meter), vs[0])
    else if a.Panic? || limit == 0 then (Panicked, vs[0])
    else ExecFrom(next, replies + [StepReply(Top(vs), a)], StepViews(vs, a), limit - 1)
  }

  lemma ExecStep(next: seq<Reply> -> Action, replies: seq<Reply>, vs: Views, limit: nat, a: Action, reply: Reply,
                 goal: (Outcome, View)) returns (vs': Views)
    requires a == next(replies) && !a.Return? && !a.Panic? && limit > 0 && reply == StepReply(Top(vs), a)
    requires ExecFrom(next, replies, vs, limit) == goal
    ensures vs' == StepViews(vs, a) && ExecFrom(next, replies + [reply], vs', limit - 1) == goal
  {
    vs' := StepViews(vs, a);
  }

  // What a program does to a plain map.
  ghost function Exec(p: Program, m: View): (Outcome, View) {
    ExecFrom(p.next, [], [m], p.limit)
  }

  // ---------- Running against cache stores ----------

  // Stores opened one on top of the other; only the last one is in use.
  ghost predicate Linked(stack: seq<Store>) {
    stack != [] &&
    (forall i :: 0 <= i < |stack| ==> stack[i] in stack[i].Repr) &&
    (forall i :: 1 <= i < |stack| ==> stack[i].parent == stack[i - 1]) &&
    (forall i, j :: 0 <= i < j < |stack| ==> stack[j] !in stack[i].Repr && stack[i].Repr <= stack[j].Repr)
  }

  ghost predicate Shows(stack: seq<Store>, vs: Views)
    reads stack
  {
    |stack| == |vs| && forall i :: 0 <= i < |vs| ==> stack[i].Contents == vs[i]
  }

  method Look(s: Store, a: Action) returns (reply: Reply)
    requires s.Valid()
    modifies s.Repr`cache
    ensures s.Valid() && reply == StepReply(s.Contents, a)
  {
    match a
    case Get(k) =>
      var value := s.Get(k);
      reply := Got(value);
    case Has(k) =>
      var found := s.Has(k);
      reply := Found(found);
    case Iterate(start, end, asc) =>
      var it := NewIterator(s, start, end, asc);
      ghost var left := it.Left;
      var pairs := Drain(it);
      RangeIs(left, s.Contents, start, end, asc);
      reply := Listed(pairs);
    case _ =>
      reply := Done;
  }

  method Change(stack: seq<Store>, a: Action, ghost vs: Views) returns (stack': seq<Store>)
    requires Linked(stack) && stack[|stack| - 1].Valid() && Shows(stack, vs)
    modifies stack
    ensures Linked(stack') && stack'[|stack'| - 1].Valid() && Shows(stack', StepViews(vs, a))
    ensures stack'[0] == stack[0]
    ensures fresh(stack'[|stack'| - 1].Repr - stack[|stack| - 1].Repr)
  {
    stack' := stack;
    var top := stack[|stack| - 1];
    if a.Write? && |stack| > 1 {
      assert top.parent == stack[|stack| - 2] && top.parent in stack;
      top.Write();
    } else if a.Discard? && |stack| > 1 {
      assert top.parent == stack[|stack| - 2];
      stack' := stack[..|stack| - 1];
    } else if a.Set? {
      top.Set(a.key, a.value);
    } else if a.Delete? {
      top.Delete(a.key);
    } else if a.CacheWrap? {
      var s := new Store.Wrap(top);
      stack' := stack + [s];
    }
  }

  method Perform(stack: seq<Store>, a: Action, ghost vs: Views) returns (stack': seq<Store>, reply: Reply)
    requires Linked(stack) && stack[|stack| - 1].Valid() && Shows(stack, vs)
    modifies stack, stack[|stack| - 1].Repr`cache
    ensures Linked(stack') && stack'[|stack'| - 1].Valid() && Shows(stack', StepViews(vs, a))
    ensures stack'[0] == stack[0] && reply == StepReply(Top(vs), a)
    ensures fresh(stack'[|stack'| - 1].Repr - stack[|stack| - 1].Repr)
  {
    reply := Look(stack[|stack| - 1], a);
    stack' := Change(stack, a, vs);
  }

  lemma {:induction false} BottomValid(stack: seq<Store>)
    requires Linked(stack) && stack[|stack| - 1].Valid()
    ensures stack[0].Valid()
  {
    if |stack| > 1 {
      assert stack[|stack| - 1].parent == stack[|stack| - 2];
      BottomValid(stack[..|stack| - 1]);
    }
  }

  method Turn(next: seq<Reply> -> Action, stack: seq<Store>, replies: seq<Reply>, limit: nat, a: Action, ghost vs: Views,
              ghost goal: (Outcome, View))
    returns (stack': seq<Store>, replies': seq<Reply>, limit': nat, ghost vs': Views)
    requires Linked(stack) && stack[|stack| - 1].Valid() && Shows(stack, vs)
    requires a == next(replies) && !a.Return? && !a.Panic? && limit > 0 && ExecFrom(next, replies, vs, limit) == goal
    modifies stack, stack[|stack| - 1].Repr`cache
    ensures Linked(stack') && stack'[|stack'| - 1].Valid() && Shows(stack', vs')
    ensures stack'[0] == stack[0] && limit' < limit && ExecFrom(next, replies', vs', limit') == goal
    ensures fresh(stack'[|stack'| - 1].Repr - stack[|stack| - 1].Repr)
  {
    var reply;
    stack', reply := Perform(stack, a, vs);
    vs' := ExecStep(next, replies, vs, limit, a, reply, goal);
    replies', limit' := replies + [reply], limit - 1;
  }

  // Running a program against a chain of caches is running it against plain maps: same outcome,
  // same final contents of the given store, and the stores below keep their contents.
  method Run(p: Program, store: Store) returns (outcome: Outcome)
    requires store.Valid()
    modifies store, store.Repr`cache
    ensures store.Valid() && (outcome, store.Contents) == Exec(p, old(store.Contents))
  {
    var stack, replies, limit := [store], [], p.limit;
    ghost var vs: Views := [store.Contents];
    ghost var goal := ExecFrom(p.next, replies, vs, limit);
    var a := p.next(replies);
    while !a.Return? && !a.Panic? && limit > 0
      invariant Linked(stack) && stack[|stack| - 1].Valid() && Shows(stack, vs)
      invariant stack[0] == store
      invariant fresh(stack[|stack| - 1].Repr - store.Repr)
      invariant a == p.next(replies) && ExecFrom(p.next, replies, vs, limit) == goal
      decreases limit
    {
      stack, replies, limit, vs := Turn(p.next, stack, replies, limit, a, vs, goal);
      a := p.next(replies);
    }
    BottomValid(stack);
    outcome := if a.Return? then Returned(a.ok, a.meter) else Panicked;
  }
}
