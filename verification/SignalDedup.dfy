/**
 The signals table: exact duplicates are refused at insertion, near-duplicates are linked to an original after
 embedding, and deletion follows the schema -- the foreign key of `duplicate_of_id` is ON DELETE SET NULL, and a
 partial unique index covers the content hashes of a project's originals.
 */
module SignalDedup {
  import opened Options

  type Vector = seq<real>

  /** `hash` stands for the normalised content, which the stored digest is taken to identify. */
  datatype Row = Row(project: nat, hash: string, embedding: Option<Vector>, duplicateOf: Option<nat>)

  type Table = map<nat, Row>

  /** The similarity from which on two signals count as the same. */
  const NEAR := 0.95

  predicate IsOriginal(t: Table, id: nat) { id in t && t[id].duplicateOf.None? }

  // ---------- invariants ----------

  /** What the foreign key enforces. */
  ghost predicate LinksResolve(t: Table) {
    forall id :: id in t && t[id].duplicateOf.Some? ==> t[id].duplicateOf.value in t
  }

  /** What the partial unique index enforces. */
  ghost predicate UniqueOriginals(t: Table) {
    forall a, b :: IsOriginal(t, a) && IsOriginal(t, b) && t[a].project == t[b].project && t[a].hash == t[b].hash ==>
      a == b
  }

  predicate ViolatesIndex(a: Row, b: Row) {
    a.duplicateOf.None? && b.duplicateOf.None? && a.project == b.project && a.hash == b.hash
  }

  /** From `id` it takes exactly n links to reach an original. */
  ghost predicate Reaches(t: Table, id: nat, n: nat)
    decreases n
  {
    && id in t
    && if n == 0 then t[id].duplicateOf.None? else t[id].duplicateOf.Some? && Reaches(t, t[id].duplicateOf.value, n - 1)
  }

  /** Every chain of links ends at an original. */
  ghost predicate Grounded(t: Table) { forall id :: id in t ==> ReachesOriginal(t, id) }

  ghost predicate ReachesOriginal(t: Table, id: nat) { exists n: nat :: Reaches(t, id, n) }

  /** Duplicates belong to the project of what they duplicate. */
  ghost predicate SameProject(t: Table) {
    forall id :: id in t && t[id].duplicateOf.Some? && t[id].duplicateOf.value in t ==>
      t[t[id].duplicateOf.value].project == t[id].project
  }

  ghost predicate Inv(t: Table) { LinksResolve(t) && UniqueOriginals(t) && Grounded(t) }

  // ---------- row rules ----------

  /** findByContentHash: some original of the project with this hash. */
  ghost predicate IsHashMatch(t: Table, project: nat, hash: string, found: nat) {
    IsOriginal(t, found) && t[found].project == project && t[found].hash == hash
  }

  function Inserted(t: Table, id: nat, project: nat, hash: string): Table {
    t[id := Row(project, hash, None, None)]
  }

  function WithEmbedding(t: Table, id: nat, e: Vector): Table {
    if id in t then t[id := t[id].(embedding := Some(e))] else t
  }

  /** FindNearDuplicateSignal's WHERE clause. */
  predicate IsNear(t: Table, dist: (Vector, Vector) -> real, threshold: real, project: nat, id: nat, e: Vector,
                   other: nat)
  {
    && IsOriginal(t, other) && t[other].project == project && other != id && t[other].embedding.Some?
    && 1.0 - dist(t[other].embedding.value, e) >= threshold
  }

  /** ... ORDER BY distance LIMIT 1. */
  ghost predicate IsNearest(t: Table, dist: (Vector, Vector) -> real, threshold: real, project: nat, id: nat,
                            e: Vector, x: nat)
  {
    && IsNear(t, dist, threshold, project, id, e, x)
    && forall y :: IsNear(t, dist, threshold, project, id, e, y) ==>
         dist(t[x].embedding.value, e) <= dist(t[y].embedding.value, e)
  }

  function Marked(t: Table, id: nat, original: nat): Table {
    if id in t then t[id := t[id].(duplicateOf := Some(original))] else t
  }

  /** The deletion with its foreign key action, if the unique index lets it happen. */
  function Unlinked(t: Table, id: nat): Table {
    map x | x in t && x != id :: if t[x].duplicateOf == Some(id) then t[x].(duplicateOf := None) else t[x]
  }

  // ---------- what the operations keep ----------

  lemma {:induction false} InsertKeepsChain(t: Table, id: nat, row: Row, from: nat, n: nat)
    requires id !in t && Reaches(t, from, n)
    ensures Reaches(t[id := row], from, n)
    decreases n
  {
    if n > 0 { InsertKeepsChain(t, id, row, t[from].duplicateOf.value, n - 1); }
  }

  lemma InsertKeepsInv(t: Table, id: nat, project: nat, hash: string)
    requires Inv(t) && id !in t
    requires forall x :: !IsHashMatch(t, project, hash, x)
    ensures Inv(Inserted(t, id, project, hash))
    ensures SameProject(t) ==> SameProject(Inserted(t, id, project, hash))
  {
    var u := Inserted(t, id, project, hash);
    forall from | from in u ensures ReachesOriginal(u, from) {
      if from == id {
        assert Reaches(u, id, 0);
      } else {
        assert ReachesOriginal(t, from);
        var n: nat :| Reaches(t, from, n);
        InsertKeepsChain(t, id, u[id], from, n);
      }
    }
    forall a, b | IsOriginal(u, a) && IsOriginal(u, b) && u[a].project == u[b].project && u[a].hash == u[b].hash
      ensures a == b
    {
      if a == id && b != id { assert IsHashMatch(t, project, hash, b); }
      if b == id && a != id { assert IsHashMatch(t, project, hash, a); }
    }
  }

  lemma {:induction false} EmbeddingKeepsChain(t: Table, id: nat, e: Vector, from: nat, n: nat)
    requires Reaches(t, from, n)
    ensures Reaches(WithEmbedding(t, id, e), from, n)
    decreases n
  {
    if n > 0 { EmbeddingKeepsChain(t, id, e, t[from].duplicateOf.value, n - 1); }
  }

  lemma EmbeddingKeepsInv(t: Table, id: nat, e: Vector)
    requires Inv(t)
    ensures Inv(WithEmbedding(t, id, e))
    ensures SameProject(t) ==> SameProject(WithEmbedding(t, id, e))
  {
    var u := WithEmbedding(t, id, e);
    forall from | from in u ensures ReachesOriginal(u, from) {
      assert ReachesOriginal(t, from);
      var n: nat :| Reaches(t, from, n);
      EmbeddingKeepsChain(t, id, e, from, n);
    }
    forall a, b | IsOriginal(u, a) && IsOriginal(u, b) && u[a].project == u[b].project && u[a].hash == u[b].hash
      ensures a == b
    {
      assert IsOriginal(t, a) && IsOriginal(t, b);
    }
  }

  /** Relinking x to an original shortens or rebuilds every chain through x: one link and the chain is over. */
  lemma {:induction false} MarkKeepsChain(t: Table, x: nat, original: nat, from: nat, n: nat)
    requires Reaches(t, from, n) && IsOriginal(t, original) && x != original && x in t
    ensures ReachesOriginal(Marked(t, x, original), from)
    decreases n
  {
    var u := Marked(t, x, original);
    assert Reaches(u, original, 0);
    if from == x {
      assert Reaches(u, x, 1);
    } else if n == 0 {
      assert Reaches(u, from, 0);
    } else {
      var next := t[from].duplicateOf.value;
      MarkKeepsChain(t, x, original, next, n - 1);
      var m: nat :| Reaches(u, next, m);
      assert Reaches(u, from, m + 1);
    }
  }

  lemma MarkKeepsInv(t: Table, x: nat, original: nat)
    requires Inv(t) && IsOriginal(t, original) && x != original
    ensures Inv(Marked(t, x, original))
    ensures SameProject(t) && (x in t ==> t[x].project == t[original].project) ==> SameProject(Marked(t, x, original))
  {
    if x in t {
      var u := Marked(t, x, original);
      forall from | from in u ensures ReachesOriginal(u, from) {
        assert ReachesOriginal(t, from);
        var n: nat :| Reaches(t, from, n);
        MarkKeepsChain(t, x, original, from, n);
      }
      forall a, b | IsOriginal(u, a) && IsOriginal(u, b) && u[a].project == u[b].project && u[a].hash == u[b].hash
        ensures a == b
      {
        assert IsOriginal(t, a) && IsOriginal(t, b);
      }
    }
  }

  /** After a deletion a chain through the deleted row ends where it used to link to it. */
  lemma {:induction false} DeleteKeepsChain(t: Table, id: nat, from: nat, n: nat)
    requires Reaches(t, from, n) && from != id
    ensures ReachesOriginal(Unlinked(t, id), from)
    decreases n
  {
    var u := Unlinked(t, id);
    if n == 0 || t[from].duplicateOf.value == id {
      assert Reaches(u, from, 0);
    } else {
      var next := t[from].duplicateOf.value;
      DeleteKeepsChain(t, id, next, n - 1);
      var m: nat :| Reaches(u, next, m);
      assert Reaches(u, from, m + 1);
    }
  }

  lemma DeleteKeepsInv(t: Table, id: nat)
    requires Inv(t) && UniqueOriginals(Unlinked(t, id))
    ensures Inv(Unlinked(t, id))
    ensures SameProject(t) ==> SameProject(Unlinked(t, id))
  {
    var u := Unlinked(t, id);
    forall from | from in u ensures ReachesOriginal(u, from) {
      assert ReachesOriginal(t, from);
      var n: nat :| Reaches(t, from, n);
      DeleteKeepsChain(t, id, from, n);
    }
  }

  // ---------- what the invariants mean ----------

  /** The row n links away, if the chain is that long. */
  function Follow(t: Table, id: nat, n: nat): Option<nat>
    decreases n
  {
    if id !in t then None
    else if n == 0 then Some(id)
    else if t[id].duplicateOf.None? then None
    else Follow(t, t[id].duplicateOf.value, n - 1)
  }

  lemma {:induction false} FollowReaches(t: Table, id: nat, k: nat, n: nat)
    requires Reaches(t, id, n)
    ensures Follow(t, id, k).Some? <==> k <= n
    ensures k <= n ==> Reaches(t, Follow(t, id, k).value, n - k)
    decreases n
  {
    if k > 0 && n > 0 { FollowReaches(t, t[id].duplicateOf.value, k - 1, n - 1); }
  }

  lemma {:induction false} ReachesOnce(t: Table, id: nat, m: nat, n: nat)
    requires Reaches(t, id, m) && Reaches(t, id, n)
    ensures m == n
    decreases n
  {
    if m > 0 && n > 0 { ReachesOnce(t, t[id].duplicateOf.value, m - 1, n - 1); }
  }

  /** No row is, by any number of links, a duplicate of itself. */
  lemma NoCycles(t: Table, id: nat, n: nat)
    requires Grounded(t) && n > 0
    ensures Follow(t, id, n) != Some(id)
  {
    if id in t {
      assert ReachesOriginal(t, id);
      var m: nat :| Reaches(t, id, m);
      FollowReaches(t, id, n, m);
      if Follow(t, id, n) == Some(id) { ReachesOnce(t, id, m, m - n); }
    }
  }

  lemma {:induction false} OriginalInProject(t: Table, id: nat, n: nat) returns (original: nat)
    requires SameProject(t) && LinksResolve(t) && Reaches(t, id, n)
    ensures IsOriginal(t, original) && t[original].project == t[id].project && Follow(t, id, n) == Some(original)
    decreases n
  {
    if n == 0 {
      original := id;
    } else {
      original := OriginalInProject(t, t[id].duplicateOf.value, n - 1);
    }
  }

  ghost predicate HasOriginal(t: Table, project: nat) { exists x :: IsOriginal(t, x) && t[x].project == project }

  /** A project that has signals has an original. */
  lemma ProjectKeepsOriginal(t: Table, id: nat)
    requires Inv(t) && SameProject(t) && id in t
    ensures HasOriginal(t, t[id].project)
  {
    assert ReachesOriginal(t, id);
    var n: nat :| Reaches(t, id, n);
    var original := OriginalInProject(t, id, n);
  }

  ghost predicate ClashAfterDelete(t: Table, id: nat, a: nat, b: nat) {
    && a in t && b in t && a != b && a != id && b != id
    && t[a].project == t[b].project && t[a].hash == t[b].hash
    && t[a].duplicateOf == Some(id) && (t[b].duplicateOf.None? || t[b].duplicateOf == Some(id))
  }

  /** Deletion is refused exactly when two rows that would be originals afterwards share project and content, one
      of them a duplicate of the deleted row. */
  lemma DeleteRefusedIff(t: Table, id: nat)
    requires Inv(t)
    ensures !UniqueOriginals(Unlinked(t, id)) <==> exists a, b :: ClashAfterDelete(t, id, a, b)
  {
    var u := Unlinked(t, id);
    if !UniqueOriginals(u) {
      var a, b :| IsOriginal(u, a) && IsOriginal(u, b) && u[a].project == u[b].project && u[a].hash == u[b].hash
                  && a != b;
      assert IsOriginal(t, a) ==> !IsOriginal(t, b);
      assert ClashAfterDelete(t, id, a, b) || ClashAfterDelete(t, id, b, a);
    }
    if a, b :| ClashAfterDelete(t, id, a, b) {
      assert IsOriginal(u, a) && IsOriginal(u, b);
    }
  }

  // ---------- rounds of the embed loop ----------

  ghost predicate NothingNear(t: Table, dist: (Vector, Vector) -> real, project: nat, id: nat, e: Vector) {
    forall x :: !IsNear(t, dist, NEAR, project, id, e, x)
  }

  /** One round: without a signal or an embedding nothing happens; otherwise the embedding is stored, and the signal
      is linked to a nearest original if one is near enough. */
  ghost predicate EmbedRound(dist: (Vector, Vector) -> real, project: nat, id: nat, e: Option<Vector>, t: Table,
                             u: Table)
  {
    if id !in t || e.None? then u == t
    else
      var w := WithEmbedding(t, id, e.value);
      if NothingNear(w, dist, project, id, e.value) then u == w
      else exists x :: IsNearest(w, dist, NEAR, project, id, e.value, x) && u == Marked(w, id, x)
  }

  /** Another signal of the project that is nobody's duplicate and has cosine similarity of at least 0.95. */
  ghost predicate SimilarTo(t: Table, dist: (Vector, Vector) -> real, project: nat, id: nat, e: Vector, x: nat) {
    && x in t && x != id && t[x].project == project && t[x].duplicateOf.None? && t[x].embedding.Some?
    && 1.0 - dist(t[x].embedding.value, e) >= 0.95
  }

  /** What a round does to the rows: the signal gets the embedding, and a link to the most similar of those that are
      similar enough, if there are any; nothing else changes. */
  ghost predicate EmbeddedAndLinked(dist: (Vector, Vector) -> real, project: nat, id: nat, e: Vector, t: Table,
                                    u: Table)
    requires id in t
  {
    && OnlyThoseChanged(t, u, [id]) && u[id].embedding == Some(e)
    && if exists x :: SimilarTo(t, dist, project, id, e, x)
       then exists x: nat :: SimilarTo(t, dist, project, id, e, x) && u[id].duplicateOf == Some(x)
                             && Closest(t, dist, project, id, e, x)
       else u[id].duplicateOf == t[id].duplicateOf
  }

  ghost predicate Closest(t: Table, dist: (Vector, Vector) -> real, project: nat, id: nat, e: Vector, x: nat)
    requires SimilarTo(t, dist, project, id, e, x)
  {
    forall y :: SimilarTo(t, dist, project, id, e, y) ==>
      dist(t[x].embedding.value, e) <= dist(t[y].embedding.value, e)
  }

  lemma RoundMeaning(dist: (Vector, Vector) -> real, project: nat, id: nat, e: Option<Vector>, t: Table, u: Table)
    requires EmbedRound(dist, project, id, e, t, u)
    ensures id !in t || e.None? ==> u == t
    ensures id in t && e.Some? ==> EmbeddedAndLinked(dist, project, id, e.value, t, u)
  {
    if id in t && e.Some? {
      var w := WithEmbedding(t, id, e.value);
      RoundChanges(dist, project, id, e, t, u);
      forall x ensures IsNear(w, dist, NEAR, project, id, e.value, x) <==> SimilarTo(t, dist, project, id, e.value, x) {
      }
      hide EmbedRound, IsNear, SimilarTo, OnlyThoseChanged;
      if !NothingNear(w, dist, project, id, e.value) {
        NearestIsClosest(dist, project, id, e.value, t, u);
      } else {
        NoneNear(dist, project, id, e.value, t, u);
      }
    }
  }

  lemma NoneNear(dist: (Vector, Vector) -> real, project: nat, id: nat, e: Vector, t: Table, u: Table)
    requires id in t && EmbedRound(dist, project, id, Some(e), t, u) && OnlyThoseChanged(t, u, [id])
    requires forall x :: !SimilarTo(t, dist, project, id, e, x)
    requires NothingNear(WithEmbedding(t, id, e), dist, project, id, e)
    ensures EmbeddedAndLinked(dist, project, id, e, t, u)
  {
  }

  lemma NearestIsClosest(dist: (Vector, Vector) -> real, project: nat, id: nat, e: Vector, t: Table, u: Table)
    requires id in t && EmbedRound(dist, project, id, Some(e), t, u) && OnlyThoseChanged(t, u, [id])
    requires var w := WithEmbedding(t, id, e);
             && !NothingNear(w, dist, project, id, e)
             && forall x :: IsNear(w, dist, NEAR, project, id, e, x) <==> SimilarTo(t, dist, project, id, e, x)
    ensures EmbeddedAndLinked(dist, project, id, e, t, u)
  {
    var w := WithEmbedding(t, id, e);
    var x :| IsNearest(w, dist, NEAR, project, id, e, x) && u == Marked(w, id, x);
    assert SimilarTo(t, dist, project, id, e, x);
    forall y | SimilarTo(t, dist, project, id, e, y)
      ensures dist(t[x].embedding.value, e) <= dist(t[y].embedding.value, e)
    {
      assert IsNear(w, dist, NEAR, project, id, e, y);
    }
    assert Closest(t, dist, project, id, e, x);
  }

  /** The rounds of a job, each on the table the one before has left. */
  ghost predicate EmbedRounds(dist: (Vector, Vector) -> real, project: nat, ids: seq<nat>, es: seq<Option<Vector>>,
                              t: Table, u: Table)
    requires |ids| == |es|
  {
    if ids == [] then u == t
    else
      var n := |ids| - 1;
      exists m :: EmbedRounds(dist, project, ids[..n], es[..n], t, m) && EmbedRound(dist, project, ids[n], es[n], m, u)
  }

  lemma RoundsSnoc(dist: (Vector, Vector) -> real, project: nat, ids: seq<nat>, es: seq<Option<Vector>>, i: nat,
                   t: Table, m: Table, u: Table)
    requires i < |ids| == |es|
    requires EmbedRounds(dist, project, ids[..i], es[..i], t, m) && EmbedRound(dist, project, ids[i], es[i], m, u)
    ensures EmbedRounds(dist, project, ids[..i + 1], es[..i + 1], t, u)
  {
    assert ids[..i + 1][..i] == ids[..i] && es[..i + 1][..i] == es[..i];
  }

  ghost predicate SameContent(t: Table, u: Table) {
    t.Keys == u.Keys && forall id :: id in t ==> t[id].project == u[id].project && t[id].hash == u[id].hash
  }

  /** Project and content of every row are as before, and rows other than these are untouched. */
  ghost predicate OnlyThoseChanged(t: Table, u: Table, ids: seq<nat>) {
    SameContent(t, u) && forall x :: x in t && x !in ids ==> u[x] == t[x]
  }

  /** The signal, if there is one, is of this project. */
  predicate OfProject(t: Table, id: nat, project: nat) { id in t ==> t[id].project == project }

  lemma RoundChanges(dist: (Vector, Vector) -> real, project: nat, id: nat, e: Option<Vector>, t: Table, u: Table)
    requires EmbedRound(dist, project, id, e, t, u)
    ensures OnlyThoseChanged(t, u, [id])
  {
    hide NothingNear, IsNearest;
  }

  lemma RoundKeepsInv(dist: (Vector, Vector) -> real, project: nat, id: nat, e: Option<Vector>, t: Table, u: Table)
    requires Inv(t) && EmbedRound(dist, project, id, e, t, u)
    ensures Inv(u)
    ensures SameProject(t) && OfProject(t, id, project) ==> SameProject(u)
  {
    hide Inv, SameProject, NothingNear;
    if id in t && e.Some? {
      var w := WithEmbedding(t, id, e.value);
      EmbeddingKeepsInv(t, id, e.value);
      if !NothingNear(w, dist, project, id, e.value) {
        var x :| IsNearest(w, dist, NEAR, project, id, e.value, x) && u == Marked(w, id, x);
        MarkKeepsInv(w, id, x);
      }
    }
  }

  lemma ChangesAdd(t: Table, m: Table, u: Table, ids: seq<nat>, id: nat)
    requires OnlyThoseChanged(t, m, ids) && OnlyThoseChanged(m, u, [id])
    ensures OnlyThoseChanged(t, u, ids + [id])
  {
  }

  lemma {:induction false} RoundsKeepInv(dist: (Vector, Vector) -> real, project: nat, ids: seq<nat>,
                                         es: seq<Option<Vector>>, t: Table, u: Table)
    requires |ids| == |es| && Inv(t) && EmbedRounds(dist, project, ids, es, t, u)
    ensures Inv(u) && OnlyThoseChanged(t, u, ids)
    ensures SameProject(t) && (forall id :: id in ids ==> OfProject(t, id, project)) ==> SameProject(u)
  {
    hide Inv, SameProject, EmbedRound;
    if ids != [] {
      var n := |ids| - 1;
      var m :| EmbedRounds(dist, project, ids[..n], es[..n], t, m) && EmbedRound(dist, project, ids[n], es[n], m, u);
      RoundsKeepInv(dist, project, ids[..n], es[..n], t, m);
      RoundChanges(dist, project, ids[n], es[n], m, u);
      RoundKeepsInv(dist, project, ids[n], es[n], m, u);
      ChangesAdd(t, m, u, ids[..n], ids[n]);
      assert ids == ids[..n] + [ids[n]];
      assert OfProject(t, ids[n], project) <==> OfProject(m, ids[n], project);
    }
  }

  // ---------- every history of a table ----------

  datatype Change =
    | Insert(id: nat, project: nat, hash: string)
    | Embed(project: nat, id: nat, e: Option<Vector>)
    | Delete(id: nat)

  ghost predicate Makes(dist: (Vector, Vector) -> real, c: Change, t: Table, u: Table) {
    match c
    case Insert(id, project, hash) =>
      id !in t && (forall x :: !IsHashMatch(t, project, hash, x)) && u == Inserted(t, id, project, hash)
    case Embed(project, id, e) => EmbedRound(dist, project, id, e, t, u)
    case Delete(id) => UniqueOriginals(Unlinked(t, id)) && u == Unlinked(t, id)
  }

  /** `tables` are the states of a table that starts empty and goes through these changes. */
  ghost predicate History(dist: (Vector, Vector) -> real, changes: seq<Change>, tables: seq<Table>) {
    && |tables| == |changes| + 1 && tables[0] == map[]
    && forall i :: 0 <= i < |changes| ==> Makes(dist, changes[i], tables[i], tables[i + 1])
  }

  /** Every embed job works on signals of its own project. */
  ghost predicate OwnSignals(changes: seq<Change>, tables: seq<Table>)
    requires |tables| == |changes| + 1
  {
    forall i :: 0 <= i < |changes| && changes[i].Embed? ==> OfProject(tables[i], changes[i].id, changes[i].project)
  }

  lemma ChangeKeepsInv(dist: (Vector, Vector) -> real, c: Change, t: Table, u: Table)
    requires Inv(t) && Makes(dist, c, t, u)
    ensures Inv(u)
    ensures SameProject(t) && (c.Embed? ==> OfProject(t, c.id, c.project)) ==> SameProject(u)
  {
    hide Inv, SameProject;
    match c
    case Insert(id, project, hash) => InsertKeepsInv(t, id, project, hash);
    case Embed(project, id, e) => RoundKeepsInv(dist, project, id, e, t, u);
    case Delete(id) => DeleteKeepsInv(t, id);
  }

  /** No reachable table has two originals of one project with the same content or a chain of links that does not
      end at an original, and if embed jobs stay within their project so do the links. */
  lemma {:induction false} ReachableInv(dist: (Vector, Vector) -> real, changes: seq<Change>, tables: seq<Table>,
                                        i: nat)
    requires History(dist, changes, tables) && i < |tables|
    ensures Inv(tables[i])
    ensures OwnSignals(changes, tables) ==> SameProject(tables[i])
  {
    if i > 0 {
      hide Inv, SameProject, Makes;
      ReachableInv(dist, changes, tables, i - 1);
      ChangeKeepsInv(dist, changes[i - 1], tables[i - 1], tables[i]);
    }
  }

  /** Then a project that has signals never loses its last original. */
  lemma ReachableOriginals(dist: (Vector, Vector) -> real, changes: seq<Change>, tables: seq<Table>, i: nat, id: nat)
    requires History(dist, changes, tables) && OwnSignals(changes, tables) && i < |tables| && id in tables[i]
    ensures HasOriginal(tables[i], tables[i][id].project)
  {
    hide *;
    ReachableInv(dist, changes, tables, i);
    ProjectKeepsOriginal(tables[i], id);
  }

  // ---------- the table in place ----------

  predicate HasContent(t: Table, x: nat, project: nat, hash: string) {
    x in t && t[x].project == project && t[x].hash == hash
  }

  datatype InsertResult = Stored(id: nat) | DuplicateOf(existing: nat)

  class SignalTable {
    var rows: Table
    const normalize: string -> string
    const dist: (Vector, Vector) -> real

    ghost predicate Valid()
      reads this
    {
      Inv(rows)
    }

    constructor (normalize: string -> string, dist: (Vector, Vector) -> real)
      ensures Valid() && rows == map[] && SameProject(rows)
      ensures this.normalize == normalize && this.dist == dist
    {
      this.normalize, this.dist := normalize, dist;
      rows := map[];
    }

    method FindByContentHash(project: nat, hash: string) returns (found: Option<nat>)
      ensures found.Some? ==> IsHashMatch(rows, project, hash, found.value)
      ensures found.None? ==> forall x :: !IsHashMatch(rows, project, hash, x)
    {
      if x :| x in rows && rows[x].duplicateOf.None? && rows[x].project == project && rows[x].hash == hash {
        found := Some(x);
      } else {
        found := None;
      }
    }

    /** The database picks an id that is not in use. */
    method InsertSignal(project: nat, content: string) returns (r: InsertResult)
      requires Valid()
      modifies this
      ensures Valid() && (old(SameProject(rows)) ==> SameProject(rows))
      ensures r.DuplicateOf? ==>
                && rows == old(rows) && r.existing in rows
                && rows[r.existing].project == project && rows[r.existing].hash == normalize(content)
                && rows[r.existing].duplicateOf.None?
      ensures r.Stored? ==>
                && r.id !in old(rows) && rows == old(rows)[r.id := Row(project, normalize(content), None, None)]
                && forall x :: HasContent(old(rows), x, project, normalize(content)) ==> old(rows)[x].duplicateOf.Some?
    {
      var hash := normalize(content);
      var existing := FindByContentHash(project, hash);
      if existing.Some? {
        return DuplicateOf(existing.value);
      }
      forall x | HasContent(rows, x, project, hash) ensures rows[x].duplicateOf.Some? {
        assert !IsHashMatch(rows, project, hash, x);
      }
      FreshId(rows.Keys);
      var id: nat :| id !in rows;
      InsertKeepsInv(rows, id, project, hash);
      rows := rows[id := Row(project, hash, None, None)];
      return Stored(id);
    }

    /** The nearest original of the project that is near enough. */
    method FindNearDuplicate(project: nat, id: nat, e: Vector, threshold: real) returns (found: Option<nat>)
      ensures found.None? <==> forall x :: !IsNear(rows, dist, threshold, project, id, e, x)
      ensures found.Some? ==> IsNearest(rows, dist, threshold, project, id, e, found.value)
    {
      found := None;
      var todo := rows.Keys;
      while todo != {}
        invariant todo <= rows.Keys
        invariant found.Some? ==> IsNear(rows, dist, threshold, project, id, e, found.value)
        invariant forall x :: x !in todo && IsNear(rows, dist, threshold, project, id, e, x) ==>
                    found.Some? && dist(rows[found.value].embedding.value, e) <= dist(rows[x].embedding.value, e)
        decreases |todo|
      {
        var x :| x in todo;
        todo := todo - {x};
        if IsNear(rows, dist, threshold, project, id, e, x) {
          if found.None? || dist(rows[x].embedding.value, e) < dist(rows[found.value].embedding.value, e) {
            found := Some(x);
          }
        }
      }
    }

    /** One round of the embed loop. */
    method EmbedOne(project: nat, id: nat, e: Option<Vector>)
      requires Valid()
      modifies this
      ensures Valid() && EmbedRound(dist, project, id, e, old(rows), rows)
      ensures id !in old(rows) || e.None? ==> rows == old(rows)
      ensures id in old(rows) && e.Some? ==> EmbeddedAndLinked(dist, project, id, e.value, old(rows), rows)
    {
      ghost var before := rows;
      if id in rows && e.Some? {
        rows := WithEmbedding(rows, id, e.value);
        var original := FindNearDuplicate(project, id, e.value, NEAR);
        if original.Some? {
          rows := Marked(rows, id, original.value);
        }
      }
      RoundKeepsInv(dist, project, id, e, before, rows);
      RoundMeaning(dist, project, id, e, before, rows);
    }

    /** EmbedWorker's loop; `es` are the embeddings that could be had, signal by signal. */
    method EmbedAll(project: nat, ids: seq<nat>, es: seq<Option<Vector>>)
      requires Valid() && |ids| == |es|
      modifies this
      ensures Valid() && EmbedRounds(dist, project, ids, es, old(rows), rows)
    {
      ghost var before := rows;
      for i := 0 to |ids|
        invariant Valid() && EmbedRounds(dist, project, ids[..i], es[..i], before, rows)
      {
        ghost var between := rows;
        EmbedOne(project, ids[i], es[i]);
        RoundsSnoc(dist, project, ids, es, i, before, between, rows);
      }
      assert ids[..|ids|] == ids && es[..|es|] == es;
    }

    /** DELETE ... WHERE id AND project_id; an error when no row matches, or when the unique index objects. */
    method DeleteSignal(project: nat, id: nat) returns (ok: bool)
      requires Valid()
      modifies this
      ensures Valid() && (old(SameProject(rows)) ==> SameProject(rows))
      ensures ok <==> id in old(rows) && old(rows)[id].project == project && UniqueOriginals(Unlinked(old(rows), id))
      ensures rows == if ok then Unlinked(old(rows), id) else old(rows)
      ensures ok ==> rows.Keys == old(rows).Keys - {id}
      ensures ok ==> forall x :: x in rows ==>
                rows[x] == if old(rows)[x].duplicateOf == Some(id) then old(rows)[x].(duplicateOf := None)
                           else old(rows)[x]
    {
      if id !in rows || rows[id].project != project {
        return false;
      }
      var after := Unlinked(rows, id);
      if a, b :| a in after && b in after && a != b && ViolatesIndex(after[a], after[b]) {
        return false;
      }
      assert UniqueOriginals(after);
      DeleteKeepsInv(rows, id);
      rows := after;
      return true;
    }
  }

  lemma FreshId(ids: set<nat>)
    ensures exists id: nat :: id !in ids
  {
    if ids == {} {
      assert 0 !in ids;
    } else {
      var top := Max(ids);
      assert top + 1 !in ids;
    }
  }

  lemma {:induction false} Max(ids: set<nat>) returns (top: nat)
    requires ids != {}
    ensures forall id :: id in ids ==> id <= top
  {
    var x :| x in ids;
    if ids - {x} == {} {
      top := x;
    } else {
      var rest := Max(ids - {x});
      top := if x > rest then x else rest;
    }
    assert forall id :: id in ids ==> id == x || id in ids - {x};
  }
}
