/** Additions and deletions of the retrieval manager that run at the same time: each of them
    goes to one store after the other, under the lock of that store only. */
module StoreInterleavings {
  import opened Retrieval
  import opened Wrappers

  /** What one thread does to both stores. */
  datatype Op = Put(id: string, point: Point) | Remove(id: string)

  /** A thread at one of the stores. */
  datatype Access = Access(op: Op, atQdrant: bool)

  function AfterOp(store: Store, op: Op): Store
  {
    match op
    case Put(id, point) => store[id := point]
    case Remove(id) => store - {id}
  }

  /** One of the stores after all accesses. */
  function StoreAfter(store: Store, accesses: seq<Access>, atQdrant: bool): Store
    decreases |accesses|
  {
    if accesses == [] then store
    else
      var before, last := StoreAfter(store, accesses[..|accesses| - 1], atQdrant), accesses[|accesses| - 1];
      if last.atQdrant == atQdrant then AfterOp(before, last.op) else before
  }

  /** The last operation on an id at one of the stores. */
  function LastOn(accesses: seq<Access>, atQdrant: bool, id: string): Option<Op>
    decreases |accesses|
  {
    if accesses == [] then None
    else
      var last := accesses[|accesses| - 1];
      if last.atQdrant == atQdrant && last.op.id == id then Some(last.op)
      else LastOn(accesses[..|accesses| - 1], atQdrant, id)
  }

  /** What a store holds under an id, given the last operation on it. */
  function Entry(store: Store, last: Option<Op>, id: string): Option<Point>
  {
    match last
    case Some(Put(_, point)) => Some(point)
    case Some(Remove(_)) => None
    case None => if id in store then Some(store[id]) else None
  }

  /** What the last operation on an id leaves at one of the stores. */
  function Left(store: Store, accesses: seq<Access>, atQdrant: bool, id: string): Option<Point>
  {
    Entry(store, LastOn(accesses, atQdrant, id), id)
  }

  function Lookup(store: Store, id: string): Option<Point> { if id in store then Some(store[id]) else None }

  lemma {:induction false} LastDecides(store: Store, accesses: seq<Access>, atQdrant: bool, id: string)
    ensures Lookup(StoreAfter(store, accesses, atQdrant), id) == Left(store, accesses, atQdrant, id)
    decreases |accesses|
  {
    if accesses != [] {
      LastDecides(store, accesses[..|accesses| - 1], atQdrant, id);
    }
  }

  /** Two different entries. */
  predicate Clash(a: Option<Point>, b: Option<Point>) { a.Some? && b.Some? && a != b }

  lemma SameStores(a: Store, b: Store)
    ensures a == b <==> forall id :: Lookup(a, id) == Lookup(b, id)
    ensures Agree(a, b) <==> forall id :: !Clash(Lookup(a, id), Lookup(b, id))
  {
    if forall id :: Lookup(a, id) == Lookup(b, id) {
      assert forall id :: id in a <==> Lookup(a, id).Some?;
      assert forall id :: id in b <==> Lookup(b, id).Some?;
      assert a.Keys == b.Keys;
      assert forall id | id in a :: Lookup(a, id) == Some(a[id]) && Lookup(b, id) == Some(b[id]);
    }
    if forall id :: !Clash(Lookup(a, id), Lookup(b, id)) {
      assert forall id | id in a && id in b :: Lookup(a, id) == Some(a[id]) && Lookup(b, id) == Some(b[id]);
    }
  }

  /** Stores that were equal agree after any interleaving exactly when, for every id, what the
      last operation at the one store leaves is not different from what the last one at the
      other leaves; and they are equal exactly when the two leave the same. */
  lemma AgreeExactly(store: Store, accesses: seq<Access>)
    ensures var q, f := StoreAfter(store, accesses, true), StoreAfter(store, accesses, false);
            && (Agree(q, f) <==> forall id :: !Clash(Left(store, accesses, true, id), Left(store, accesses, false, id)))
            && (q == f <==> forall id :: Left(store, accesses, true, id) == Left(store, accesses, false, id))
  {
    var q, f := StoreAfter(store, accesses, true), StoreAfter(store, accesses, false);
    forall id
      ensures Lookup(q, id) == Left(store, accesses, true, id) && Lookup(f, id) == Left(store, accesses, false, id)
    {
      LastDecides(store, accesses, true, id);
      LastDecides(store, accesses, false, id);
    }
    hide *;
    SameStores(q, f);
  }

  /** Every operation has been at both stores. */
  ghost predicate Complete(accesses: seq<Access>)
  {
    forall a | a in accesses :: Access(a.op, !a.atQdrant) in accesses
  }

  lemma {:induction false} LastIsThere(accesses: seq<Access>, atQdrant: bool, id: string)
    ensures var last := LastOn(accesses, atQdrant, id);
            if last.Some? then last.value.id == id && Access(last.value, atQdrant) in accesses
            else forall a | a in accesses :: a.atQdrant != atQdrant || a.op.id != id
    decreases |accesses|
  {
    if accesses != [] {
      var front := accesses[..|accesses| - 1];
      LastIsThere(front, atQdrant, id);
      assert accesses == front + [accesses[|accesses| - 1]];
    }
  }

  /** For every id the same operation was the last at both stores. */
  ghost predicate SameLastEverywhere(accesses: seq<Access>)
  {
    forall id :: LastOn(accesses, true, id) == LastOn(accesses, false, id)
  }

  /** When all threads are done: the stores are equal exactly when for every id the operation
      that came last at the one store came last at the other. */
  lemma EqualExactly(store: Store, accesses: seq<Access>)
    requires Complete(accesses)
    ensures StoreAfter(store, accesses, true) == StoreAfter(store, accesses, false) <==> SameLastEverywhere(accesses)
  {
    AgreeExactly(store, accesses);
    hide StoreAfter, LastOn, Left, Complete, Agree;
    if StoreAfter(store, accesses, true) == StoreAfter(store, accesses, false) {
      forall id ensures LastOn(accesses, true, id) == LastOn(accesses, false, id) {
        SameLast(store, accesses, id);
        assert Left(store, accesses, true, id) == Left(store, accesses, false, id);
      }
    }
    if SameLastEverywhere(accesses) {
      forall id ensures Left(store, accesses, true, id) == Left(store, accesses, false, id) {
        SameLast(store, accesses, id);
        assert LastOn(accesses, true, id) == LastOn(accesses, false, id);
      }
    }
  }

  lemma SameLast(store: Store, accesses: seq<Access>, id: string)
    requires Complete(accesses)
    ensures Left(store, accesses, true, id) == Left(store, accesses, false, id)
       <==> LastOn(accesses, true, id) == LastOn(accesses, false, id)
  {
    LastIsThere(accesses, true, id);
    LastIsThere(accesses, false, id);
    LastInBoth(accesses, id);
    hide LastOn, Complete;
  }

  lemma LastInBoth(accesses: seq<Access>, id: string)
    requires Complete(accesses)
    ensures LastOn(accesses, true, id).Some? <==> LastOn(accesses, false, id).Some?
  {
    LastIsThere(accesses, true, id);
    LastIsThere(accesses, false, id);
    hide LastOn;
    var a, b := LastOn(accesses, true, id), LastOn(accesses, false, id);
    if a.Some? { assert Access(a.value, false) in accesses; }
    if b.Some? { assert Access(b.value, true) in accesses; }
  }

  /** No two different operations are on the same id. */
  ghost predicate OnePerId(accesses: seq<Access>)
  {
    forall a, b | a in accesses && b in accesses && a.op.id == b.op.id :: a.op == b.op
  }

  /** So documents with different ids may be added at the same time: the stores come out equal,
      and the same as in every other order. */
  lemma DifferentIdsDoNotClash(store: Store, accesses: seq<Access>, others: seq<Access>)
    requires Complete(accesses) && OnePerId(accesses)
    requires forall a :: a in others <==> a in accesses
    ensures StoreAfter(store, accesses, true) == StoreAfter(store, accesses, false)
    ensures StoreAfter(store, others, true) == StoreAfter(store, others, false) == StoreAfter(store, accesses, true)
  {
    OneLast(accesses, accesses);
    OneLast(accesses, others);
    assert Complete(others);
    EqualExactly(store, accesses);
    EqualExactly(store, others);
    var q, r := StoreAfter(store, accesses, true), StoreAfter(store, others, true);
    forall id ensures Lookup(q, id) == Lookup(r, id) {
      LastDecides(store, accesses, true, id);
      LastDecides(store, others, true, id);
    }
    hide *;
    SameStores(q, r);
  }

  lemma OneLast(accesses: seq<Access>, others: seq<Access>)
    requires Complete(accesses) && OnePerId(accesses) && forall a :: a in others <==> a in accesses
    ensures forall id :: LastOn(accesses, true, id) == LastOn(others, true, id) == LastOn(others, false, id)
  {
    forall id ensures LastOn(accesses, true, id) == LastOn(others, true, id) == LastOn(others, false, id) {
      LastIsThere(accesses, true, id);
      LastIsThere(others, true, id);
      LastIsThere(others, false, id);
      hide LastOn;
      var a, b, c := LastOn(accesses, true, id), LastOn(others, true, id), LastOn(others, false, id);
      if a.Some? { assert Access(a.value, false) in others && Access(a.value, true) in others; }
      if b.Some? { assert Access(b.value, true) in accesses; }
      if c.Some? { assert Access(c.value, false) in accesses && Access(c.value, true) in accesses; }
    }
  }

  /** One operation after the other is what a history of named documents does. */
  lemma SerialIsHistory(s: Stores, embed: string -> Vec, r: Request)
    requires s.useQdrant && s.useFaiss && s.qdrant == s.faiss && Named(r)
    ensures var op := match r case Add(d, _, _) => Put(d.id, Point(embed(d.content), d)) case Delete(id) => Remove(id);
            var accesses := [Access(op, true)] + [Access(op, false)];
            s.After(embed, r) == s.(qdrant := StoreAfter(s.qdrant, accesses, true),
                                    faiss := StoreAfter(s.faiss, accesses, false))
  {
    var op := match r case Add(d, _, _) => Put(d.id, Point(embed(d.content), d)) case Delete(id) => Remove(id);
    assert ([Access(op, true)] + [Access(op, false)])[..1] == [Access(op, true)];
    assert [Access(op, true)][..0] == [];
    assert StoreAfter(s.qdrant, [Access(op, true)], true) == AfterOp(s.qdrant, op);
    assert StoreAfter(s.faiss, [Access(op, true)], false) == s.faiss;
  }

  /** Two additions of different documents under one id, the second overtaking the first
      between the stores: the stores disagree about that id until it is written again. */
  lemma CrossedAdditions(store: Store, id: string, p: Point, r: Point)
    requires p != r
    ensures var accesses := [Access(Put(id, p), true), Access(Put(id, r), true), Access(Put(id, r), false),
                             Access(Put(id, p), false)];
            !Agree(StoreAfter(store, accesses, true), StoreAfter(store, accesses, false))
  {
    var accesses := [Access(Put(id, p), true), Access(Put(id, r), true), Access(Put(id, r), false),
                     Access(Put(id, p), false)];
    AgreeExactly(store, accesses);
    assert accesses[..3][..2] == [Access(Put(id, p), true), Access(Put(id, r), true)];
    assert LastOn(accesses[..3][..2], true, id) == Some(Put(id, r));
    assert LastOn(accesses[..3], true, id) == Some(Put(id, r));
    assert LastOn(accesses, true, id) == Some(Put(id, r)) && LastOn(accesses, false, id) == Some(Put(id, p));
    assert Left(store, accesses, true, id) == Some(r) && Left(store, accesses, false, id) == Some(p);
  }
}
