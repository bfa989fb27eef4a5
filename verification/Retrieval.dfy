/** Two vector stores searched as one: each store ranks and truncates its own matches, and
    the manager merges, removes duplicates, ranks and truncates again. The result is a top-k
    of the union, in every state that additions and deletions can reach. */
module Retrieval {
  import opened Wrappers

  type Vec = seq<real>

  datatype Document = Document(id: string, content: string, source: string)

  /** A stored embedding with the document it belongs to. */
  datatype Point = Point(vector: Vec, document: Document)

  type Store = map<string, Point>

  /** One hit of a search. */
  datatype Hit = Hit(id: string, document: Document, score: real)

  type Similarity = (Vec, Vec) -> real

  // ---- rankings

  function Min(a: nat, b: nat): nat { if a <= b then a else b }

  predicate Distinct(hits: seq<Hit>) { forall i, j | 0 <= i < j < |hits| :: hits[i] != hits[j] }

  predicate Sorted(hits: seq<Hit>) { forall i, j | 0 <= i < j < |hits| :: hits[i].score >= hits[j].score }

  function Elements(hits: seq<Hit>): set<Hit> { set h | h in hits }

  /** `hits` are `k` best of `all`: as many as there are up to `k`, no hit twice, best first,
      and none left out that scores above one taken in. */
  ghost predicate TopK(hits: seq<Hit>, all: set<Hit>, k: nat)
  {
    && |hits| == Min(k, |all|)
    && Distinct(hits) && Sorted(hits)
    && Elements(hits) <= all
    && forall left, taken | left in all - Elements(hits) && taken in hits :: left.score <= taken.score
  }

  /** All matches of a query in a store. */
  function Matches(similarity: Similarity, store: Store, query: Vec, threshold: real): set<Hit>
  {
    set id | id in store && similarity(query, store[id].vector) >= threshold ::
      HitOf(similarity, store, query, id)
  }

  function HitOf(similarity: Similarity, store: Store, query: Vec, id: string): Hit
    requires id in store
  {
    Hit(id, store[id].document, similarity(query, store[id].vector))
  }

  lemma {:induction false} CountElements(hits: seq<Hit>)
    requires Distinct(hits)
    ensures |Elements(hits)| == |hits|
    decreases |hits|
  {
    if hits == [] {
      assert Elements(hits) == {};
    } else {
      var front, last := hits[..|hits| - 1], hits[|hits| - 1];
      CountElements(front);
      assert Elements(hits) == Elements(front) + {last};
    }
  }

  lemma Subsets(a: set<Hit>, b: set<Hit>)
    requires a <= b
    ensures |a| <= |b|
    ensures |a| == |b| ==> a == b
  {
    assert b == a + (b - a);
    assert |b| == |a| + |b - a|;
  }

  /** Cutting a full ranking off gives a top-k. */
  lemma CutIsTopK(ranking: seq<Hit>, all: set<Hit>, k: nat)
    requires Distinct(ranking) && Sorted(ranking) && Elements(ranking) == all
    ensures TopK(ranking[..Min(k, |ranking|)], all, k)
  {
    CountElements(ranking);
    var cut := ranking[..Min(k, |ranking|)];
    forall left, taken | left in all - Elements(cut) && taken in cut
      ensures left.score <= taken.score
    {
      var i :| 0 <= i < |ranking| && ranking[i] == left;
      var j :| 0 <= j < |cut| && cut[j] == taken;
      assert forall m | 0 <= m < |cut| :: cut[m] == ranking[m] && cut[m] in Elements(cut);
    }
  }

  /** What one of the two stores left out cannot beat what the merge takes in. */
  lemma LeftOutLoses(a: set<Hit>, ra: seq<Hit>, merged: set<Hit>, r: seq<Hit>, k: nat, left: Hit, taken: Hit)
    requires TopK(ra, a, k) && Elements(ra) <= merged && TopK(r, merged, k)
    requires left in a && left !in Elements(ra) && taken in r
    ensures left.score <= taken.score
  {
    CountElements(ra);
    CountElements(r);
    Subsets(Elements(ra), a);
    Subsets(Elements(ra), merged);
    assert |ra| == k;
    assert taken in Elements(r);
    if Elements(ra) <= Elements(r) {
      Subsets(Elements(ra), Elements(r));
      assert Elements(ra) == Elements(r);
    } else {
      var x :| x in Elements(ra) && x !in Elements(r);
      assert left.score <= x.score <= taken.score;
    }
  }

  /** Merging the top-k of two sets and taking the top-k of that is the top-k of the union. */
  lemma MergedTopK(a: set<Hit>, b: set<Hit>, ra: seq<Hit>, rb: seq<Hit>, r: seq<Hit>, k: nat)
    requires TopK(ra, a, k) && TopK(rb, b, k)
    requires TopK(r, Elements(ra) + Elements(rb), k)
    ensures TopK(r, a + b, k)
  {
    var merged := Elements(ra) + Elements(rb);
    CountElements(ra);
    CountElements(rb);
    Subsets(Elements(ra), a);
    Subsets(Elements(rb), b);
    Subsets(Elements(ra), merged);
    Subsets(Elements(rb), merged);
    Subsets(merged, a + b);
    assert Min(k, |merged|) == Min(k, |a + b|) by {
      if |merged| < k {
        assert Elements(ra) == a && Elements(rb) == b;
      }
    }
    forall left, taken | left in (a + b) - Elements(r) && taken in r
      ensures left.score <= taken.score
    {
      if left !in merged {
        if left in a {
          LeftOutLoses(a, ra, merged, r, k, left, taken);
        } else {
          LeftOutLoses(b, rb, merged, r, k, left, taken);
        }
      }
    }
  }

  // ---- the stores as values

  /** One id never has two different entries. */
  ghost predicate Agree(a: Store, b: Store) { forall id | id in a && id in b :: a[id] == b[id] }

  /** Both stores taken together. */
  function Union(a: Store, b: Store): Store { a + b }

  lemma MatchesOfUnion(similarity: Similarity, a: Store, b: Store, query: Vec, threshold: real)
    requires Agree(a, b)
    ensures Matches(similarity, Union(a, b), query, threshold) ==
            Matches(similarity, a, query, threshold) + Matches(similarity, b, query, threshold)
  {
    var u := Union(a, b);
    forall h | h in Matches(similarity, u, query, threshold)
      ensures h in Matches(similarity, a, query, threshold) + Matches(similarity, b, query, threshold)
    {
      var id :| id in u && similarity(query, u[id].vector) >= threshold && h == HitOf(similarity, u, query, id);
      if id in b {
        assert HitOf(similarity, b, query, id) == h;
      } else {
        assert HitOf(similarity, a, query, id) == h;
      }
    }
    forall h | h in Matches(similarity, a, query, threshold)
      ensures h in Matches(similarity, u, query, threshold)
    {
      var id :| id in a && similarity(query, a[id].vector) >= threshold && h == HitOf(similarity, a, query, id);
      assert HitOf(similarity, u, query, id) == h;
    }
    forall h | h in Matches(similarity, b, query, threshold)
      ensures h in Matches(similarity, u, query, threshold)
    {
      var id :| id in b && similarity(query, b[id].vector) >= threshold && h == HitOf(similarity, b, query, id);
      assert HitOf(similarity, u, query, id) == h;
    }
  }

  /** In a store, an id makes the hit. */
  lemma HitsById(similarity: Similarity, store: Store, query: Vec, threshold: real)
    ensures forall x, y | x in Matches(similarity, store, query, threshold) &&
                          y in Matches(similarity, store, query, threshold) && x.id == y.id :: x == y
  {
  }

  // ---- sorting and cutting off

  /** Some order of the hits with the best first; ties fall as they may. */
  method SortByScore(hits: seq<Hit>) returns (sorted: seq<Hit>)
    ensures Sorted(sorted) && multiset(sorted) == multiset(hits)
  {
    sorted := [];
    for i := 0 to |hits|
      invariant Sorted(sorted) && multiset(sorted) == multiset(hits[..i])
    {
      sorted := InsertByScore(sorted, hits[i]);
      assert hits[..i + 1] == hits[..i] + [hits[i]];
    }
    assert hits[..|hits|] == hits;
  }

  method InsertByScore(sorted: seq<Hit>, h: Hit) returns (r: seq<Hit>)
    requires Sorted(sorted)
    ensures Sorted(r) && multiset(r) == multiset(sorted) + multiset{h}
  {
    var i := 0;
    while i < |sorted| && sorted[i].score >= h.score
      invariant 0 <= i <= |sorted|
      invariant forall j | 0 <= j < i :: sorted[j].score >= h.score
    {
      i := i + 1;
    }
    r := sorted[..i] + [h] + sorted[i..];
    InsertedSorted(sorted, h, i);
    InsertedHits(sorted, h, i);
  }

  lemma InsertedSorted(sorted: seq<Hit>, h: Hit, i: nat)
    requires Sorted(sorted) && i <= |sorted| && forall j | 0 <= j < i :: sorted[j].score >= h.score
    requires i < |sorted| ==> sorted[i].score < h.score
    ensures Sorted(sorted[..i] + [h] + sorted[i..])
  {
    var r := sorted[..i] + [h] + sorted[i..];
    forall j, k | 0 <= j < k < |r| ensures r[j].score >= r[k].score {
      assert r[j] == if j < i then sorted[j] else if j == i then h else sorted[j - 1];
      assert r[k] == if k < i then sorted[k] else if k == i then h else sorted[k - 1];
    }
  }

  lemma InsertedHits(sorted: seq<Hit>, h: Hit, i: nat)
    requires i <= |sorted|
    ensures multiset(sorted[..i] + [h] + sorted[i..]) == multiset(sorted) + multiset{h}
  {
    assert sorted == sorted[..i] + sorted[i..];
  }

  lemma {:induction false} ReorderedDistinct(a: seq<Hit>, b: seq<Hit>)
    requires Distinct(a) && multiset(a) == multiset(b)
    ensures Distinct(b) && Elements(b) == Elements(a)
  {
    forall i, j | 0 <= i < j < |b| ensures b[i] != b[j] {
      if b[i] == b[j] {
        var rest := b[..i] + b[i + 1..];
        assert b == b[..i] + [b[i]] + b[i + 1..];
        assert rest[j - 1] == b[i];
        assert multiset(b)[b[i]] >= 2;
        OnlyOnce(a, b[i]);
      }
    }
    forall h ensures h in Elements(a) <==> h in Elements(b) {
      assert h in a <==> h in multiset(a);
      assert h in b <==> h in multiset(b);
    }
  }

  lemma {:induction false} OnlyOnce(a: seq<Hit>, h: Hit)
    requires Distinct(a)
    ensures multiset(a)[h] <= 1
    decreases |a|
  {
    if a != [] {
      OnlyOnce(a[..|a| - 1], h);
      assert a == a[..|a| - 1] + [a[|a| - 1]];
      assert h in a[..|a| - 1] <==> multiset(a[..|a| - 1])[h] >= 1;
    }
  }

  /** Ranks distinct hits and cuts the ranking off at the limit. */
  method RankAndCut(hits: seq<Hit>, limit: nat) returns (r: seq<Hit>)
    requires Distinct(hits)
    ensures TopK(r, Elements(hits), limit)
  {
    r := SortByScore(hits);
    ReorderedDistinct(hits, r);
    CutIsTopK(r, Elements(hits), limit);
    if |r| > limit {
      r := r[..limit];
    } else {
      assert r[..|r|] == r;
    }
  }

  /** Goes through a store and collects the hits that reach the threshold. */
  method Collect(similarity: Similarity, store: Store, query: Vec, threshold: real) returns (hits: seq<Hit>)
    ensures Distinct(hits) && Elements(hits) == Matches(similarity, store, query, threshold)
  {
    hits := [];
    var rest := store.Keys;
    while rest != {}
      invariant rest <= store.Keys
      invariant Distinct(hits)
      invariant forall h | h in hits ::
                  h.id in store && h.id !in rest && h == HitOf(similarity, store, query, h.id) && h.score >= threshold
      invariant forall id | id in store && id !in rest && similarity(query, store[id].vector) >= threshold ::
                  HitOf(similarity, store, query, id) in hits
      decreases |rest|
    {
      var id :| id in rest;
      rest := rest - {id};
      var score := similarity(query, store[id].vector);
      if score >= threshold {
        hits := hits + [Hit(id, store[id].document, score)];
      }
    }
  }

  // ---- the two stores

  class QdrantVectorStore {
    const similarity: Similarity
    var connected: bool
    var points: Store

    constructor (similarity: Similarity)
      ensures this.similarity == similarity && !connected && points == map[]
    {
      this.similarity := similarity;
      connected, points := false, map[];
    }

    method Connect()
      modifies this`connected
      ensures connected
    {
      connected := true;
    }

    /** `uuid` is the identifier drawn for a document without one. */
    method AddDocument(document: Document, vector: Vec, uuid: string) returns (id: string)
      modifies this`points
      ensures !connected ==> id == "" && points == old(points)
      ensures connected ==> id == (if document.id == "" then uuid else document.id)
      ensures connected ==> points == old(points)[id := Point(vector, document)]
    {
      if !connected { return ""; }
      id := if document.id == "" then uuid else document.id;
      points := points[id := Point(vector, document)];
    }

    method Search(query: Vec, limit: nat, threshold: real) returns (hits: seq<Hit>)
      ensures TopK(hits, if connected then Matches(similarity, points, query, threshold) else {}, limit)
    {
      if !connected { return []; }
      hits := Collect(similarity, points, query, threshold);
      hits := RankAndCut(hits, limit);
    }

    method DeleteDocument(id: string) returns (deleted: bool)
      modifies this`points
      ensures deleted == (connected && id in old(points))
      ensures points == if connected then old(points) - {id} else old(points)
    {
      if !connected { return false; }
      deleted := id in points;
      points := points - {id};
    }
  }

  class FAISSVectorStore {
    const similarity: Similarity
    var initialized: bool
    var documents: map<string, Document>
    var embeddings: map<string, Vec>

    constructor (similarity: Similarity)
      ensures this.similarity == similarity && !initialized && Valid() && Points() == map[]
    {
      this.similarity := similarity;
      initialized, documents, embeddings := false, map[], map[];
    }

    /** Every embedding has its document. */
    ghost predicate Valid()
      reads this
    {
      embeddings.Keys == documents.Keys
    }

    /** The two maps as one store. */
    function Points(): Store
      requires Valid()
      reads this
    {
      map id | id in embeddings :: Point(embeddings[id], documents[id])
    }

    method Initialize()
      modifies this`initialized
      ensures initialized
    {
      initialized := true;
    }

    method AddDocument(document: Document, vector: Vec, uuid: string) returns (id: string)
      requires Valid()
      modifies this`documents, this`embeddings
      ensures Valid()
      ensures !initialized ==> id == "" && Points() == old(Points())
      ensures initialized ==> id == (if document.id == "" then uuid else document.id)
      ensures initialized ==> Points() == old(Points())[id := Point(vector, document)]
    {
      if !initialized { return ""; }
      id := if document.id == "" then uuid else document.id;
      documents := documents[id := document];
      embeddings := embeddings[id := vector];
    }

    method Search(query: Vec, limit: nat, threshold: real) returns (hits: seq<Hit>)
      requires Valid()
      ensures TopK(hits, if initialized then Matches(similarity, Points(), query, threshold) else {}, limit)
    {
      if !initialized { return []; }
      hits := Collect(similarity, Points(), query, threshold);
      hits := RankAndCut(hits, limit);
    }

    method DeleteDocument(id: string) returns (deleted: bool)
      requires Valid()
      modifies this`documents, this`embeddings
      ensures Valid() && deleted
      ensures Points() == old(Points()) - {id}
    {
      documents := documents - {id};
      embeddings := embeddings - {id};
      deleted := true;
    }
  }

  // ---- the manager over every history

  /** What is asked of the manager. `qdrantUuid` and `faissUuid` are the identifiers the two
      stores draw for a document without one. */
  datatype Request =
    | Add(document: Document, qdrantUuid: string, faissUuid: string)
    | Delete(id: string)

  /** The two stores of a manager that uses the ones its configuration names. */
  datatype Stores = Stores(useQdrant: bool, useFaiss: bool, qdrant: Store, faiss: Store)
  {
    function Put(store: Store, used: bool, id: string, point: Point): Store
    {
      if used then store[id := point] else store
    }

    function After(embed: string -> Vec, r: Request): Stores
    {
      match r
      case Add(d, qdrantUuid, faissUuid) =>
        var point := Point(embed(d.content), d);
        this.(qdrant := Put(qdrant, useQdrant, if d.id == "" then qdrantUuid else d.id, point),
              faiss := Put(faiss, useFaiss, if d.id == "" then faissUuid else d.id, point))
      case Delete(id) =>
        this.(qdrant := if useQdrant then qdrant - {id} else qdrant,
              faiss := if useFaiss then faiss - {id} else faiss)
    }

    function Run(embed: string -> Vec, requests: seq<Request>): Stores
      decreases |requests|
    {
      if requests == [] then this else After(embed, requests[0]).Run(embed, requests[1..])
    }

    /** Every entry is under its document's id with that document's embedding; a store in
        use holds all documents, one that is not holds none. */
    ghost predicate Faithful(embed: string -> Vec)
    {
      && (forall id | id in qdrant :: qdrant[id].document.id == id && qdrant[id].vector == embed(qdrant[id].document.content))
      && (forall id | id in faiss :: faiss[id].document.id == id && faiss[id].vector == embed(faiss[id].document.content))
      && (useQdrant && useFaiss ==> qdrant == faiss)
      && (!useQdrant ==> qdrant == map[]) && (!useFaiss ==> faiss == map[])
    }
  }

  /** What the stores in use hold together. */
  lemma UnionIs(s: Stores, embed: string -> Vec)
    requires s.Faithful(embed)
    ensures Agree(s.qdrant, s.faiss)
    ensures Union(s.qdrant, s.faiss) == if s.useQdrant then s.qdrant else s.faiss
  {
  }

  lemma DocumentsPut(store: Store, id: string, point: Point)
    ensures Documents(store[id := point]) == Documents(store)[id := point.document]
    ensures Documents(store - {id}) == Documents(store) - {id}
  {
  }

  predicate Named(r: Request) { r.Add? ==> r.document.id != "" }

  /** What the history of requests left behind: the last document added under each id and
      not deleted since. */
  function Remaining(requests: seq<Request>): map<string, Document>
    decreases |requests|
  {
    if requests == [] then map[]
    else
      var before := Remaining(requests[..|requests| - 1]);
      match requests[|requests| - 1]
      case Add(d, _, _) => before[d.id := d]
      case Delete(id) => before - {id}
  }

  function Documents(store: Store): map<string, Document> { map id | id in store :: store[id].document }

  lemma AfterFaithful(s: Stores, embed: string -> Vec, r: Request)
    requires s.Faithful(embed) && Named(r)
    ensures s.After(embed, r).Faithful(embed)
  {
  }

  lemma AfterDocuments(s: Stores, embed: string -> Vec, r: Request)
    requires s.Faithful(embed) && Named(r) && (s.useQdrant || s.useFaiss)
    ensures var t := s.After(embed, r);
            Documents(Union(t.qdrant, t.faiss)) ==
            match r
            case Add(d, _, _) => Documents(Union(s.qdrant, s.faiss))[d.id := d]
            case Delete(id) => Documents(Union(s.qdrant, s.faiss)) - {id}
  {
    var t := s.After(embed, r);
    AfterFaithful(s, embed, r);
    UnionIs(s, embed);
    UnionIs(t, embed);
    hide Documents, Union, Stores.Faithful;
    var store := if s.useQdrant then s.qdrant else s.faiss;
    match r
    case Add(d, _, _) => DocumentsPut(store, d.id, Point(embed(d.content), d));
    case Delete(id) => DocumentsPut(store, id, Point([], Document("", "", "")));
  }

  lemma {:induction false} RunLast(s: Stores, embed: string -> Vec, requests: seq<Request>, r: Request)
    ensures s.Run(embed, requests + [r]) == s.Run(embed, requests).After(embed, r)
    decreases |requests|
  {
    if requests == [] {
      assert (requests + [r])[1..] == [];
    } else {
      assert (requests + [r])[1..] == requests[1..] + [r];
      RunLast(s.After(embed, requests[0]), embed, requests[1..], r);
    }
  }

  /** In every state that additions of named documents and deletions reach, the stores in
      use hold exactly the documents that are left, each with its embedding. */
  lemma {:induction false} EveryHistory(useQdrant: bool, useFaiss: bool, embed: string -> Vec, requests: seq<Request>)
    requires forall r | r in requests :: Named(r)
    ensures var s := Stores(useQdrant, useFaiss, map[], map[]).Run(embed, requests);
            && s.Faithful(embed) && s.useQdrant == useQdrant && s.useFaiss == useFaiss
            && (useQdrant || useFaiss ==> Documents(Union(s.qdrant, s.faiss)) == Remaining(requests))
    decreases |requests|
  {
    if requests != [] {
      var front, last := requests[..|requests| - 1], requests[|requests| - 1];
      EveryHistory(useQdrant, useFaiss, embed, front);
      assert front + [last] == requests;
      RunLast(Stores(useQdrant, useFaiss, map[], map[]), embed, front, last);
      var before := Stores(useQdrant, useFaiss, map[], map[]).Run(embed, front);
      AfterFaithful(before, embed, last);
      if useQdrant || useFaiss {
        AfterDocuments(before, embed, last);
      }
    }
  }

  /** The matches of a query among documents, taken directly. */
  function Answers(similarity: Similarity, embed: string -> Vec, documents: map<string, Document>, query: string,
                   threshold: real): set<Hit>
  {
    set id | id in documents && similarity(embed(query), embed(documents[id].content)) >= threshold ::
      Hit(id, documents[id], similarity(embed(query), embed(documents[id].content)))
  }

  lemma MatchesAreAnswers(similarity: Similarity, embed: string -> Vec, store: Store, query: string, threshold: real)
    requires forall id | id in store :: store[id].vector == embed(store[id].document.content)
    ensures Matches(similarity, store, embed(query), threshold) ==
            Answers(similarity, embed, Documents(store), query, threshold)
  {
    var direct := Answers(similarity, embed, Documents(store), query, threshold);
    forall h | h in Matches(similarity, store, embed(query), threshold) ensures h in direct {
      assert h.id in Documents(store);
    }
    forall h | h in direct ensures h in Matches(similarity, store, embed(query), threshold) {
      assert h.id in store && h == HitOf(similarity, store, embed(query), h.id);
    }
  }

  /** After any history of named documents, a top-k of the matches in the two stores is a
      top-k of the answers among the documents that are left: it names no document twice. */
  lemma SearchAnswers(similarity: Similarity, embed: string -> Vec, useQdrant: bool, useFaiss: bool,
                      requests: seq<Request>, query: string, threshold: real, limit: nat, hits: seq<Hit>)
    requires useQdrant || useFaiss
    requires forall r | r in requests :: Named(r)
    requires var s := Stores(useQdrant, useFaiss, map[], map[]).Run(embed, requests);
             TopK(hits, Matches(similarity, Union(s.qdrant, s.faiss), embed(query), threshold), limit)
    ensures TopK(hits, Answers(similarity, embed, Remaining(requests), query, threshold), limit)
    ensures forall i, j | 0 <= i < j < |hits| :: hits[i].document.id != hits[j].document.id
  {
    var s := Stores(useQdrant, useFaiss, map[], map[]).Run(embed, requests);
    EveryHistory(useQdrant, useFaiss, embed, requests);
    UnionIs(s, embed);
    var u := Union(s.qdrant, s.faiss);
    MatchesAreAnswers(similarity, embed, u, query, threshold);
    forall i, j | 0 <= i < j < |hits| ensures hits[i].document.id != hits[j].document.id {
      assert hits[i] in Elements(hits) && hits[j] in Elements(hits);
      assert hits[i] in Matches(similarity, u, embed(query), threshold);
      assert hits[j] in Matches(similarity, u, embed(query), threshold);
      HitsById(similarity, u, embed(query), threshold);
    }
  }

  /** A document under two ids. */
  ghost predicate StoredTwice(store: Store, d: Document)
  {
    exists x, y :: x != y && x in store && y in store && store[x].document == d && store[y].document == d
  }

  /** A document in two places of a result. */
  ghost predicate FoundTwice(hits: seq<Hit>, d: Document)
  {
    exists i, j :: 0 <= i < j < |hits| && hits[i].document == d && hits[j].document == d
  }

  lemma {:induction false} EmptyIdNeverRemains(requests: seq<Request>)
    requires forall r | r in requests :: Named(r)
    ensures "" !in Remaining(requests)
    decreases |requests|
  {
    if requests != [] {
      var front, last := requests[..|requests| - 1], requests[|requests| - 1];
      assert last in requests;
      EmptyIdNeverRemains(front);
    }
  }

  /** What one more addition makes of the two stores together. */
  lemma UnionAfterAdd(s: Stores, embed: string -> Vec, d: Document, first: string, second: string)
    requires s.Faithful(embed) && (s.useQdrant || s.useFaiss)
    requires d.id == ""
    requires first !in Union(s.qdrant, s.faiss) && second !in Union(s.qdrant, s.faiss)
    ensures var t := s.After(embed, Add(d, first, second)); var point := Point(embed(d.content), d);
            var u := Union(s.qdrant, s.faiss);
            Union(t.qdrant, t.faiss) == if s.useQdrant && s.useFaiss then u[first := point][second := point]
                                        else if s.useQdrant then u[first := point] else u[second := point]
  {
    UnionIs(s, embed);
  }

  /** The stores that any history of named documents fills. */
  function Reached(useQdrant: bool, useFaiss: bool, embed: string -> Vec, requests: seq<Request>): Store
  {
    var s := Stores(useQdrant, useFaiss, map[], map[]).Run(embed, requests);
    Union(s.qdrant, s.faiss)
  }

  /** After any history of named documents, a document that is added then is stored under two
      ids exactly when it has no id of its own and both stores are in use. `first` and
      `second` are the identifiers the stores draw, which are different and new. */
  lemma StoredTwiceExactly(useQdrant: bool, useFaiss: bool, embed: string -> Vec, requests: seq<Request>,
                           d: Document, first: string, second: string)
    requires (useQdrant || useFaiss) && forall r | r in requests :: Named(r)
    requires first != second && first !in Remaining(requests) && second !in Remaining(requests)
    ensures StoredTwice(Reached(useQdrant, useFaiss, embed, requests + [Add(d, first, second)]), d)
       <==> d.id == "" && useQdrant && useFaiss
  {
    var start := Stores(useQdrant, useFaiss, map[], map[]);
    var s := start.Run(embed, requests);
    var add := Add(d, first, second);
    var t := s.After(embed, add);
    EveryHistory(useQdrant, useFaiss, embed, requests);
    EmptyIdNeverRemains(requests);
    RunLast(start, embed, requests, add);
    UnionIs(s, embed);
    var u, v := Union(s.qdrant, s.faiss), Union(t.qdrant, t.faiss);
    assert Documents(u) == Remaining(requests);
    assert forall x | x in u :: x in Documents(u);
    if d.id != "" {
      AfterFaithful(s, embed, add);
      UnionIs(t, embed);
      assert forall x | x in v :: v[x].document.id == x;
    } else {
      assert forall x | x in u :: u[x].document.id == x && x != "";
      UnionAfterAdd(s, embed, d, first, second);
      if useQdrant && useFaiss {
        assert first in v && second in v && v[first].document == d && v[second].document == d;
      }
    }
  }

  /** The two stores still agree then: their new entries are under different, new ids. */
  lemma AgreeAfterAdd(useQdrant: bool, useFaiss: bool, embed: string -> Vec, requests: seq<Request>,
                      d: Document, first: string, second: string)
    requires (useQdrant || useFaiss) && forall r | r in requests :: Named(r)
    requires first != second && first !in Remaining(requests) && second !in Remaining(requests)
    ensures var t := Stores(useQdrant, useFaiss, map[], map[]).Run(embed, requests + [Add(d, first, second)]);
            Agree(t.qdrant, t.faiss)
  {
    var start := Stores(useQdrant, useFaiss, map[], map[]);
    var s := start.Run(embed, requests);
    EveryHistory(useQdrant, useFaiss, embed, requests);
    RunLast(start, embed, requests, Add(d, first, second));
    UnionIs(s, embed);
    hide Stores.Run, Remaining, Named;
    var u := Union(s.qdrant, s.faiss);
    assert forall id | id in u :: id in Documents(u);
  }

  /** With room for all matches, a search returns every match. */
  lemma AllMatchesFound(hits: seq<Hit>, all: set<Hit>, limit: nat)
    requires TopK(hits, all, limit) && |all| <= limit
    ensures Elements(hits) == all
  {
    CountElements(hits);
    Subsets(Elements(hits), all);
  }

  lemma TwoHitsAreFoundTwice(hits: seq<Hit>, h: Hit, k: Hit)
    requires h in Elements(hits) && k in Elements(hits) && h != k && h.document == k.document
    ensures FoundTwice(hits, h.document)
  {
    var i :| 0 <= i < |hits| && hits[i] == h;
    var j :| 0 <= j < |hits| && hits[j] == k;
    if i < j { assert FoundTwice(hits, h.document); } else { assert j < i; }
  }

  lemma MatchIsStored(similarity: Similarity, store: Store, query: Vec, threshold: real, h: Hit)
    requires h in Matches(similarity, store, query, threshold)
    ensures h.id in store && h == HitOf(similarity, store, query, h.id)
  {
  }

  lemma StoredIsMatch(similarity: Similarity, store: Store, query: Vec, threshold: real, id: string)
    requires id in store && similarity(query, store[id].vector) >= threshold
    ensures HitOf(similarity, store, query, id) in Matches(similarity, store, query, threshold)
  {
  }

  /** A document is found twice if and only if it is stored twice. */
  lemma FoundAsStored(similarity: Similarity, store: Store, query: Vec, threshold: real, hits: seq<Hit>, d: Document)
    requires Distinct(hits) && Elements(hits) == Matches(similarity, store, query, threshold)
    requires forall id | id in store && store[id].document == d :: similarity(query, store[id].vector) >= threshold
    ensures FoundTwice(hits, d) <==> StoredTwice(store, d)
  {
    hide Matches;
    if StoredTwice(store, d) {
      var x, y :| x != y && x in store && y in store && store[x].document == d && store[y].document == d;
      StoredIsMatch(similarity, store, query, threshold, x);
      StoredIsMatch(similarity, store, query, threshold, y);
      TwoHitsAreFoundTwice(hits, HitOf(similarity, store, query, x), HitOf(similarity, store, query, y));
    }
    if FoundTwice(hits, d) {
      var i, j :| 0 <= i < j < |hits| && hits[i].document == d && hits[j].document == d;
      assert hits[i] in Elements(hits) && hits[j] in Elements(hits) && hits[i] != hits[j];
      MatchIsStored(similarity, store, query, threshold, hits[i]);
      MatchIsStored(similarity, store, query, threshold, hits[j]);
    }
  }

  /** So, after any history of named documents, a search that the document matches and that
      has room for all matches returns it twice exactly then. */
  lemma FoundTwiceExactly(similarity: Similarity, useQdrant: bool, useFaiss: bool, embed: string -> Vec,
                          requests: seq<Request>, d: Document, first: string, second: string, query: string,
                          threshold: real, limit: nat, hits: seq<Hit>)
    requires (useQdrant || useFaiss) && forall r | r in requests :: Named(r)
    requires first != second && first !in Remaining(requests) && second !in Remaining(requests)
    requires similarity(embed(query), embed(d.content)) >= threshold
    requires var all := Matches(similarity, Reached(useQdrant, useFaiss, embed, requests + [Add(d, first, second)]),
                                embed(query), threshold);
             TopK(hits, all, limit) && |all| <= limit
    ensures FoundTwice(hits, d) <==> d.id == "" && useQdrant && useFaiss
  {
    var store := Reached(useQdrant, useFaiss, embed, requests + [Add(d, first, second)]);
    StoredTwiceExactly(useQdrant, useFaiss, embed, requests, d, first, second);
    EntriesAreEmbedded(useQdrant, useFaiss, embed, requests + [Add(d, first, second)]);
    hide Reached, Matches, StoredTwice, FoundTwice;
    AllMatchesFound(hits, Matches(similarity, store, embed(query), threshold), limit);
    FoundAsStored(similarity, store, embed(query), threshold, hits, d);
  }

  ghost predicate Embedded(store: Store, embed: string -> Vec)
  {
    forall id | id in store :: store[id].vector == embed(store[id].document.content)
  }

  lemma {:induction false} StoresAreEmbedded(s: Stores, embed: string -> Vec, requests: seq<Request>)
    requires Embedded(s.qdrant, embed) && Embedded(s.faiss, embed)
    ensures Embedded(s.Run(embed, requests).qdrant, embed) && Embedded(s.Run(embed, requests).faiss, embed)
    decreases |requests|
  {
    if requests != [] {
      var t := s.After(embed, requests[0]);
      assert Embedded(t.qdrant, embed) && Embedded(t.faiss, embed);
      hide Stores.After, Embedded;
      StoresAreEmbedded(t, embed, requests[1..]);
    }
  }

  /** In every history, every entry holds the embedding of its document. */
  lemma EntriesAreEmbedded(useQdrant: bool, useFaiss: bool, embed: string -> Vec, requests: seq<Request>)
    ensures Embedded(Reached(useQdrant, useFaiss, embed, requests), embed)
  {
    StoresAreEmbedded(Stores(useQdrant, useFaiss, map[], map[]), embed, requests);
  }

  // ---- the manager

  /** Hits that agree on what an id stands for. */
  ghost predicate OneHitPerId(hits: set<Hit>) { forall x, y | x in hits && y in hits && x.id == y.id :: x == y }

  /** `h` is the hit at place `i`, and none before it has its id. */
  predicate IsFirstOfId(hits: seq<Hit>, i: int, h: Hit)
  {
    0 <= i < |hits| && hits[i] == h && forall j | 0 <= j < i :: hits[j].id != h.id
  }

  lemma {:induction false} SomeFirst(hits: seq<Hit>, k: nat) returns (i: nat)
    requires k < |hits|
    ensures i <= k && hits[i].id == hits[k].id && IsFirstOfId(hits, i, hits[i])
  {
    if j :| 0 <= j < k && hits[j].id == hits[k].id {
      i := SomeFirst(hits, j);
    } else {
      i := k;
    }
  }

  /** The first hits stand for every id, and are all the hits where these agree. */
  lemma FirstsRepresent(hits: seq<Hit>, r: seq<Hit>)
    requires forall h :: h in r <==> exists i :: IsFirstOfId(hits, i, h)
    ensures forall h | h in hits :: exists k :: k in r && k.id == h.id
    ensures OneHitPerId(Elements(hits)) ==> Elements(r) == Elements(hits)
  {
    forall h | h in hits
      ensures exists k :: k in r && k.id == h.id
      ensures OneHitPerId(Elements(hits)) ==> h in r
    {
      var k :| 0 <= k < |hits| && hits[k] == h;
      var i := SomeFirst(hits, k);
      assert hits[i] in r;
      assert hits[i] in Elements(hits) && h in Elements(hits);
    }
  }

  /** Keeps the first hit of each id. */
  method RemoveDuplicates(hits: seq<Hit>) returns (r: seq<Hit>)
    ensures Distinct(r)
    ensures forall i, j | 0 <= i < j < |r| :: r[i].id != r[j].id
    ensures forall h :: h in r <==> exists i :: IsFirstOfId(hits, i, h)
    ensures forall h | h in hits :: exists k :: k in r && k.id == h.id
    ensures OneHitPerId(Elements(hits)) ==> Elements(r) == Elements(hits)
  {
    r := [];
    var seen: set<string> := {};
    for i := 0 to |hits|
      invariant forall i, j | 0 <= i < j < |r| :: r[i].id != r[j].id
      invariant forall h | h in r :: h.id in seen && exists j :: j < i && IsFirstOfId(hits, j, h)
      invariant forall j, h | j < i && IsFirstOfId(hits, j, h) :: h in r
      invariant seen == set j | 0 <= j < i :: hits[j].id
    {
      if hits[i].id !in seen {
        seen := seen + {hits[i].id};
        r := r + [hits[i]];
        assert IsFirstOfId(hits, i, hits[i]);
      }
    }
    FirstsRepresent(hits, r);
  }

  /** The merge of two searches of stores that agree. */
  lemma SearchMerges(similarity: Similarity, qdrant: Store, faiss: Store, query: Vec, threshold: real, limit: nat,
                     fromQdrant: seq<Hit>, fromFaiss: seq<Hit>, merged: seq<Hit>, hits: seq<Hit>)
    requires Agree(qdrant, faiss)
    requires TopK(fromQdrant, Matches(similarity, qdrant, query, threshold), limit)
    requires TopK(fromFaiss, Matches(similarity, faiss, query, threshold), limit)
    requires OneHitPerId(Elements(fromQdrant + fromFaiss)) ==> Elements(merged) == Elements(fromQdrant + fromFaiss)
    requires TopK(hits, Elements(merged), limit)
    ensures TopK(hits, Matches(similarity, Union(qdrant, faiss), query, threshold), limit)
  {
    hide Matches, Elements, Agree, OneHitPerId, Union;
    var a := Matches(similarity, qdrant, query, threshold);
    var b := Matches(similarity, faiss, query, threshold);
    MatchesOfUnion(similarity, qdrant, faiss, query, threshold);
    ElementsOfBoth(fromQdrant, fromFaiss);
    OneHitPerIdWithin(similarity, Union(qdrant, faiss), query, threshold, Elements(fromQdrant) + Elements(fromFaiss)) by {
      assert Elements(fromQdrant) <= a && Elements(fromFaiss) <= b;
    }
    hide TopK;
    MergedTopK(a, b, fromQdrant, fromFaiss, hits, limit);
  }

  lemma ElementsOfBoth(a: seq<Hit>, b: seq<Hit>)
    ensures Elements(a + b) == Elements(a) + Elements(b)
  {
  }

  lemma OneHitPerIdWithin(similarity: Similarity, store: Store, query: Vec, threshold: real, hits: set<Hit>)
    requires hits <= Matches(similarity, store, query, threshold)
    ensures OneHitPerId(hits)
  {
    HitsById(similarity, store, query, threshold);
  }

  /** The search of a store that is not in use. */
  lemma NothingFound(similarity: Similarity, query: Vec, threshold: real, limit: nat)
    ensures TopK([], Matches(similarity, map[], query, threshold), limit)
  {
  }

  class RetrievalManager {
    const similarity: Similarity
    const embed: string -> Vec
    var initialized: bool
    var useQdrant: bool
    var useFaiss: bool
    var qdrant: QdrantVectorStore
    var faiss: FAISSVectorStore
    var cache: map<string, Document>
    ghost var history: seq<Request>

    constructor (similarity: Similarity, embed: string -> Vec)
      ensures Valid() && !initialized && fresh(qdrant) && fresh(faiss)
      ensures this.similarity == similarity && this.embed == embed
    {
      this.similarity, this.embed := similarity, embed;
      initialized, useQdrant, useFaiss, cache, history := false, false, false, map[], [];
      qdrant := new QdrantVectorStore(similarity);
      faiss := new FAISSVectorStore(similarity);
    }

    /** What is stored is what the history since the initialisation put there. */
    ghost predicate Valid()
      reads this, qdrant, faiss
    {
      && faiss.Valid()
      && qdrant.similarity == similarity && faiss.similarity == similarity
      && (useQdrant ==> qdrant.connected) && (useFaiss ==> faiss.initialized)
      && S() == Stores(useQdrant, useFaiss, map[], map[]).Run(embed, history)
    }

    function S(): Stores
      reads this, qdrant, faiss
      requires faiss.Valid()
    {
      Stores(useQdrant, useFaiss, if useQdrant then qdrant.points else map[], if useFaiss then faiss.Points() else map[])
    }

    method Initialize(useQdrant: bool, useFaiss: bool)
      requires Valid()
      modifies this, qdrant, faiss
      ensures Valid() && initialized && history == []
      ensures this.useQdrant == useQdrant && this.useFaiss == useFaiss
      ensures qdrant == old(qdrant) || fresh(qdrant)
      ensures faiss == old(faiss) || fresh(faiss)
    {
      this.useQdrant, this.useFaiss, history := useQdrant, useFaiss, [];
      if useQdrant {
        qdrant := new QdrantVectorStore(similarity);
        qdrant.Connect();
      }
      if useFaiss {
        faiss := new FAISSVectorStore(similarity);
        faiss.Initialize();
      }
      initialized := true;
    }

    method AddDocument(document: Document, qdrantUuid: string, faissUuid: string) returns (id: string)
      requires Valid()
      modifies this, qdrant, faiss
      ensures Valid() && unchanged(`initialized, `useQdrant, `useFaiss, `qdrant, `faiss)
      ensures !initialized ==> id == "" && unchanged(this)
      ensures initialized ==>
                && history == old(history) + [Add(document, qdrantUuid, faissUuid)]
                && id == (if document.id != "" then document.id
                          else if useQdrant && qdrantUuid != "" then qdrantUuid
                          else if useFaiss then faissUuid else "")
                && cache == old(cache)[id := document]
    {
      hide Stores.Run;
      if !initialized { return ""; }
      var vector := embed(document.content);
      id := document.id;
      if useQdrant {
        var qdrantId := qdrant.AddDocument(document, vector, qdrantUuid);
        if id == "" { id := qdrantId; }
      }
      if useFaiss {
        var faissId := faiss.AddDocument(document, vector, faissUuid);
        if id == "" { id := faissId; }
      }
      cache := cache[id := document];
      RunLast(Stores(useQdrant, useFaiss, map[], map[]), embed, history, Add(document, qdrantUuid, faissUuid));
      history := history + [Add(document, qdrantUuid, faissUuid)];
    }

    method DeleteDocument(id: string) returns (deleted: bool)
      requires Valid()
      modifies this, qdrant, faiss
      ensures Valid() && unchanged(`initialized, `useQdrant, `useFaiss, `qdrant, `faiss)
      ensures !initialized ==> !deleted && unchanged(this)
      ensures initialized ==>
                && history == old(history) + [Delete(id)]
                && deleted == (useQdrant ==> id in old(S()).qdrant)
                && cache == old(cache) - {id}
    {
      if !initialized { return false; }
      deleted := true;
      if useQdrant {
        deleted := qdrant.DeleteDocument(id);
      }
      if useFaiss {
        var faissDeleted := faiss.DeleteDocument(id);
        deleted := deleted && faissDeleted;
      }
      cache := cache - {id};
      RunLast(Stores(useQdrant, useFaiss, map[], map[]), embed, history, Delete(id));
      history := history + [Delete(id)];
    }

    /** Searches the stores in use, merges and ranks. Whenever the two stores agree on their
        common ids, the result is a top-k of both taken together. */
    method Search(query: string, limit: nat, threshold: real) returns (hits: seq<Hit>)
      requires Valid()
      ensures !initialized ==> hits == []
      ensures initialized && Agree(S().qdrant, S().faiss) ==>
                TopK(hits, Matches(similarity, Union(S().qdrant, S().faiss), embed(query), threshold), limit)
      ensures initialized && (useQdrant || useFaiss) && (forall r | r in history :: Named(r)) ==>
                TopK(hits, Answers(similarity, embed, Remaining(history), query, threshold), limit)
    {
      hide Matches, TopK, Stores.Run, Remaining, Agree, Answers, Named, Union;
      if !initialized { return []; }
      var vector := embed(query);
      var fromQdrant, fromFaiss := [], [];
      NothingFound(similarity, vector, threshold, limit);
      if useQdrant {
        fromQdrant := qdrant.Search(vector, limit, threshold);
      }
      if useFaiss {
        fromFaiss := faiss.Search(vector, limit, threshold);
      }
      var merged := RemoveDuplicates(fromQdrant + fromFaiss);
      hits := RankAndCut(merged, limit);
      if Agree(S().qdrant, S().faiss) {
        SearchMerges(similarity, S().qdrant, S().faiss, vector, threshold, limit, fromQdrant, fromFaiss, merged, hits);
      }
      if (useQdrant || useFaiss) && (forall r | r in history :: Named(r)) {
        EveryHistory(useQdrant, useFaiss, embed, history);
        UnionIs(S(), embed);
        SearchAnswers(similarity, embed, useQdrant, useFaiss, history, query, threshold, limit, hits);
      }
    }
  }

  /** A manager with named documents only is given one more document, and searched: with room
      for all matches the document is found twice exactly when it has no id of its own and
      both stores are in use. */
  method AddThenSearch(m: RetrievalManager, d: Document, first: string, second: string, query: string, limit: nat,
                       threshold: real)
    returns (hits: seq<Hit>)
    requires m.Valid() && m.initialized && (m.useQdrant || m.useFaiss) && forall r | r in m.history :: Named(r)
    requires first != second && first !in Remaining(m.history) && second !in Remaining(m.history)
    requires m.similarity(m.embed(query), m.embed(d.content)) >= threshold
    modifies m, m.qdrant, m.faiss
    ensures m.Valid() && m.history == old(m.history) + [Add(d, first, second)]
    ensures var all := Matches(m.similarity, Union(m.S().qdrant, m.S().faiss), m.embed(query), threshold);
            && TopK(hits, all, limit)
            && (|all| <= limit ==> (FoundTwice(hits, d) <==> d.id == "" && m.useQdrant && m.useFaiss))
  {
    hide Matches, TopK, Stores.Run, Remaining, Agree, Answers, Named, Union, FoundTwice;
    ghost var requests := m.history;
    AgreeAfterAdd(m.useQdrant, m.useFaiss, m.embed, requests, d, first, second);
    var id := m.AddDocument(d, first, second);
    hits := m.Search(query, limit, threshold);
    if |Matches(m.similarity, Union(m.S().qdrant, m.S().faiss), m.embed(query), threshold)| <= limit {
      FoundTwiceExactly(m.similarity, m.useQdrant, m.useFaiss, m.embed, requests, d, first, second, query, threshold,
                        limit, hits);
    }
  }
}
