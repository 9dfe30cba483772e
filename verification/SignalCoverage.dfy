/**
 When a project that has signals keeps an original: exact conditions for every change of the signals table, for
 whole histories, and two histories that go wrong.
 */
module SignalCoverage {
  import opened Options
  import opened SignalDedup

  // ---------- when a project keeps an original ----------

  /** Every project that has signals has an original. */
  ghost predicate Covered(t: Table) { forall id :: id in t ==> HasOriginal(t, t[id].project) }

  ghost predicate OtherOriginal(t: Table, x: nat)
    requires x in t
  {
    exists z :: z != x && IsOriginal(t, z) && t[z].project == t[x].project
  }

  /** Linking a signal to an original takes no project its last original if and only if the two are of one project
      or the signal's project has another original. */
  lemma MarkCoverage(t: Table, x: nat, original: nat)
    requires Covered(t) && x in t && IsOriginal(t, original) && x != original
    ensures Covered(Marked(t, x, original)) <==> t[x].project == t[original].project || OtherOriginal(t, x)
  {
    var u := Marked(t, x, original);
    if Covered(u) {
      assert HasOriginal(u, u[x].project);
      var z :| IsOriginal(u, z) && u[z].project == u[x].project;
      assert IsOriginal(t, z) && z != x;
    }
    if t[x].project == t[original].project || OtherOriginal(t, x) {
      forall id | id in u ensures HasOriginal(u, u[id].project) {
        assert HasOriginal(t, t[id].project);
        var z :| IsOriginal(t, z) && t[z].project == t[id].project;
        if z != x {
          assert IsOriginal(u, z);
        } else if t[x].project == t[original].project {
          assert IsOriginal(u, original);
        } else {
          var y :| y != x && IsOriginal(t, y) && t[y].project == t[x].project;
          assert IsOriginal(u, y);
        }
      }
    }
  }

  ghost predicate SameOutline(t: Table, u: Table) {
    t.Keys == u.Keys && forall x :: x in t ==> u[x].project == t[x].project && u[x].duplicateOf == t[x].duplicateOf
  }

  lemma OutlineKeeps(t: Table, u: Table, id: nat)
    requires SameOutline(t, u) && id in t
    ensures Covered(t) ==> Covered(u)
    ensures OtherOriginal(t, id) ==> OtherOriginal(u, id)
  {
    if Covered(t) {
      forall x | x in u ensures HasOriginal(u, u[x].project) {
        assert HasOriginal(t, t[x].project);
        var z :| IsOriginal(t, z) && t[z].project == t[x].project;
        assert IsOriginal(u, z);
      }
    }
    if OtherOriginal(t, id) {
      var z :| z != id && IsOriginal(t, z) && t[z].project == t[id].project;
      assert IsOriginal(u, z);
    }
  }

  lemma EmbeddingCoverage(t: Table, id: nat, e: Vector)
    requires id in t
    ensures Covered(WithEmbedding(t, id, e)) <==> Covered(t)
    ensures OtherOriginal(WithEmbedding(t, id, e), id) <==> OtherOriginal(t, id)
  {
    OutlineKeeps(t, WithEmbedding(t, id, e), id);
    OutlineKeeps(WithEmbedding(t, id, e), t, id);
  }

  /** What can be checked before a round. */
  ghost predicate HarmlessRound(dist: (Vector, Vector) -> real, project: nat, id: nat, e: Option<Vector>, t: Table) {
    || id !in t || e.None?
    || NothingNear(WithEmbedding(t, id, e.value), dist, project, id, e.value)
    || t[id].project == project || OtherOriginal(t, id)
  }

  lemma RoundCoverage(dist: (Vector, Vector) -> real, project: nat, id: nat, e: Option<Vector>, t: Table, u: Table)
    requires Covered(t) && EmbedRound(dist, project, id, e, t, u)
    ensures Covered(u) <==> HarmlessRound(dist, project, id, e, t)
  {
    hide Covered, OtherOriginal, NothingNear;
    if id in t && e.Some? {
      var w := WithEmbedding(t, id, e.value);
      EmbeddingCoverage(t, id, e.value);
      if !NothingNear(w, dist, project, id, e.value) {
        var x :| IsNearest(w, dist, NEAR, project, id, e.value, x) && u == Marked(w, id, x);
        MarkCoverage(w, id, x);
      }
    }
  }

  /** What can be checked before a deletion: the project has another original, or gets one because a duplicate of
      the deleted signal is its own, or has no other signal. */
  ghost predicate HarmlessDelete(t: Table, id: nat) {
    id in t ==>
      || OtherOriginal(t, id)
      || (exists z :: z in t && z != id && t[z].duplicateOf == Some(id) && t[z].project == t[id].project)
      || (forall z :: z in t && z != id ==> t[z].project != t[id].project)
  }

  lemma DeleteCoverage(t: Table, id: nat)
    requires Covered(t)
    ensures Covered(Unlinked(t, id)) <==> HarmlessDelete(t, id)
  {
    var u := Unlinked(t, id);
    if Covered(u) && id in t {
      if w :| w in t && w != id && t[w].project == t[id].project {
        assert HasOriginal(u, u[w].project);
        var z :| IsOriginal(u, z) && u[z].project == u[w].project;
        assert IsOriginal(t, z) || t[z].duplicateOf == Some(id);
      }
    }
    if HarmlessDelete(t, id) {
      forall w | w in u ensures HasOriginal(u, u[w].project) { SurvivesDelete(t, id, w); }
    }
  }

  lemma SurvivesDelete(t: Table, id: nat, w: nat)
    requires Covered(t) && HarmlessDelete(t, id) && w in Unlinked(t, id)
    ensures HasOriginal(Unlinked(t, id), t[w].project)
  {
    var u := Unlinked(t, id);
    assert HasOriginal(t, t[w].project);
    var y :| IsOriginal(t, y) && t[y].project == t[w].project;
    if y != id {
      assert IsOriginal(u, y);
    } else if OtherOriginal(t, id) {
      var z :| z != id && IsOriginal(t, z) && t[z].project == t[id].project;
      assert IsOriginal(u, z);
    } else {
      var z :| z in t && z != id && t[z].duplicateOf == Some(id) && t[z].project == t[id].project;
      assert IsOriginal(u, z);
    }
  }

  lemma InsertCoverage(t: Table, id: nat, project: nat, hash: string)
    requires Covered(t) && id !in t
    ensures Covered(Inserted(t, id, project, hash))
  {
    var u := Inserted(t, id, project, hash);
    forall w | w in u ensures HasOriginal(u, u[w].project) {
      if w == id {
        assert IsOriginal(u, id);
      } else {
        assert HasOriginal(t, t[w].project);
        var z :| IsOriginal(t, z) && t[z].project == t[w].project;
        assert IsOriginal(u, z);
      }
    }
  }

  ghost predicate Harmless(dist: (Vector, Vector) -> real, c: Change, t: Table) {
    match c
    case Insert(_, _, _) => true
    case Embed(project, id, e) => HarmlessRound(dist, project, id, e, t)
    case Delete(id) => HarmlessDelete(t, id)
  }

  lemma ChangeCoverage(dist: (Vector, Vector) -> real, c: Change, t: Table, u: Table)
    requires Covered(t) && Makes(dist, c, t, u)
    ensures Covered(u) <==> Harmless(dist, c, t)
  {
    hide Covered, HarmlessRound, HarmlessDelete, EmbedRound, UniqueOriginals, IsHashMatch;
    match c
    case Insert(id, project, hash) => InsertCoverage(t, id, project, hash);
    case Embed(project, id, e) => RoundCoverage(dist, project, id, e, t, u);
    case Delete(id) => DeleteCoverage(t, id);
  }

  /** All along a history every project with signals has an original if and only if every change is harmless at
      the table it meets. */
  lemma ProjectsCoveredIff(dist: (Vector, Vector) -> real, changes: seq<Change>, tables: seq<Table>)
    requires History(dist, changes, tables)
    ensures (forall i :: 0 <= i < |tables| ==> Covered(tables[i]))
            <==> forall i :: 0 <= i < |changes| ==> Harmless(dist, changes[i], tables[i])
  {
    if forall i :: 0 <= i < |tables| ==> Covered(tables[i]) {
      forall i | 0 <= i < |changes| ensures Harmless(dist, changes[i], tables[i]) {
        hide Covered, Harmless, Makes;
        assert Covered(tables[i + 1]);
        ChangeCoverage(dist, changes[i], tables[i], tables[i + 1]);
      }
    }
    if forall i :: 0 <= i < |changes| ==> Harmless(dist, changes[i], tables[i]) {
      forall i | 0 <= i < |tables| ensures Covered(tables[i]) { CoveredUntil(dist, changes, tables, i); }
    }
  }

  lemma {:induction false} CoveredUntil(dist: (Vector, Vector) -> real, changes: seq<Change>, tables: seq<Table>,
                                        i: nat)
    requires History(dist, changes, tables) && i < |tables|
    requires forall j :: 0 <= j < |changes| ==> Harmless(dist, changes[j], tables[j])
    ensures Covered(tables[i])
  {
    if i > 0 {
      hide Covered, Harmless, Makes;
      CoveredUntil(dist, changes, tables, i - 1);
      ChangeCoverage(dist, changes[i - 1], tables[i - 1], tables[i]);
    }
  }

  // ---------- two histories that go wrong ----------

  lemma RoundAlone(dist: (Vector, Vector) -> real, project: nat, id: nat, e: Vector, t: Table)
    requires id in t && forall x :: IsOriginal(t, x) && x != id ==> t[x].project != project
    ensures EmbedRound(dist, project, id, Some(e), t, WithEmbedding(t, id, e))
  {
  }

  /** The only other original of the job's project is near: the signal is linked to it. */
  lemma RoundLinks(dist: (Vector, Vector) -> real, project: nat, id: nat, e: Vector, t: Table, x: nat)
    requires id in t && x != id && IsOriginal(t, x) && t[x].project == project && t[x].embedding == Some(e)
    requires forall y :: IsOriginal(t, y) && y != id && t[y].project == project ==> y == x
    requires 1.0 - dist(e, e) >= NEAR
    ensures EmbedRound(dist, project, id, Some(e), t, Marked(WithEmbedding(t, id, e), id, x))
  {
    var w := WithEmbedding(t, id, e);
    assert IsNear(w, dist, NEAR, project, id, e, x);
    assert IsNearest(w, dist, NEAR, project, id, e, x);
  }

  /** The embed worker looks for originals in the project of its arguments, not in the signal's own. */
  function OrphaningChanges(e: Vector): seq<Change> {
    [Insert(1, 1, "a"), Embed(1, 1, Some(e)), Insert(2, 2, "b"), Embed(1, 2, Some(e))]
  }

  /** A job of project 1 that is given the only signal of project 2 leaves project 2 without an original. */
  lemma ForeignSignalCanOrphanProject(dist: (Vector, Vector) -> real, e: Vector) returns (tables: seq<Table>)
    requires 1.0 - dist(e, e) >= NEAR
    ensures History(dist, OrphaningChanges(e), tables)
    ensures 2 in tables[4] && !HasOriginal(tables[4], tables[4][2].project)
  {
    var t0: Table := map[];
    var t1 := Inserted(t0, 1, 1, "a");
    var t2 := WithEmbedding(t1, 1, e);
    var t3 := Inserted(t2, 2, 2, "b");
    var t4 := Marked(WithEmbedding(t3, 2, e), 2, 1);
    RoundAlone(dist, 1, 1, e, t1);
    RoundLinks(dist, 1, 2, e, t3, 1);
    tables := [t0, t1, t2, t3, t4];
  }

  /** Content that was linked to a near original may be inserted again: it is no original's content. */
  function EntanglingChanges(e: Vector): seq<Change> {
    [Insert(1, 1, "a"), Embed(1, 1, Some(e)), Insert(2, 1, "b"), Embed(1, 2, Some(e)), Insert(3, 1, "b"),
     Embed(1, 3, Some(e))]
  }

  /** The project's one original is `x`: new content whose embedding is its embedding ends up linked to it. */
  lemma IngestLinks(dist: (Vector, Vector) -> real, t: Table, id: nat, hash: string, e: Vector, x: nat)
    requires id !in t && IsOriginal(t, x) && t[x].project == 1 && t[x].embedding == Some(e) && t[x].hash != hash
    requires forall y :: IsOriginal(t, y) && t[y].project == 1 ==> y == x
    requires 1.0 - dist(e, e) >= NEAR
    ensures var t1, t2 := Inserted(t, id, 1, hash), t[id := Row(1, hash, Some(e), Some(x))];
            Makes(dist, Insert(id, 1, hash), t, t1) && Makes(dist, Embed(1, id, Some(e)), t1, t2)
  {
    var t1 := Inserted(t, id, 1, hash);
    RoundLinks(dist, 1, id, e, t1, x);
    assert Marked(WithEmbedding(t1, id, e), id, x) == t[id := Row(1, hash, Some(e), Some(x))];
  }

  /** After that the first signal cannot be deleted: both copies would become originals. */
  lemma OriginalCanBeUndeletable(dist: (Vector, Vector) -> real, e: Vector) returns (tables: seq<Table>)
    requires 1.0 - dist(e, e) >= NEAR
    ensures History(dist, EntanglingChanges(e), tables) && OwnSignals(EntanglingChanges(e), tables)
    ensures IsOriginal(tables[6], 1) && !UniqueOriginals(Unlinked(tables[6], 1))
  {
    hide EmbedRound;
    var t1 := Inserted(map[], 1, 1, "a");
    var t2 := WithEmbedding(t1, 1, e);
    RoundAlone(dist, 1, 1, e, t1);
    var t3, t4 := Inserted(t2, 2, 1, "b"), t2[2 := Row(1, "b", Some(e), Some(1))];
    IngestLinks(dist, t2, 2, "b", e, 1);
    var t5, t6 := Inserted(t4, 3, 1, "b"), t4[3 := Row(1, "b", Some(e), Some(1))];
    IngestLinks(dist, t4, 3, "b", e, 1);
    tables := [map[], t1, t2, t3, t4, t5, t6];
    var u := Unlinked(t6, 1);
    assert IsOriginal(u, 2) && IsOriginal(u, 3) && u[2].hash == u[3].hash;
  }
}
