/** The client's list of works: facts of different works must not share an identity, a position or an invocation. */
module Listing {
  import opened Evidence
  import opened Journal

  function Flatten(views: seq<seq<Fact>>): seq<Fact> {
    if views == [] then [] else Flatten(views[..|views| - 1]) + views[|views| - 1]
  }

  predicate Apart(f: Fact, g: Fact) {
    f.id != g.id && f.sequence != g.sequence && (f.invocationID != "" && f.invocationID == g.invocationID ==> f.requestRef == g.requestRef)
  }

  /** No two listed facts contradict each other. */
  predicate Uncontested(facts: seq<Fact>) { forall i, j | 0 <= i < j < |facts| :: Apart(facts[i], facts[j]) }

  /** What the client remembers of the facts it has listed. */
  ghost predicate Remembers(facts: seq<Fact>, ids: set<string>, sequences: set<nat>, owners: map<string, string>) {
    (forall id :: id in ids <==> exists i | 0 <= i < |facts| :: facts[i].id == id) &&
    (forall n :: n in sequences <==> exists i | 0 <= i < |facts| :: facts[i].sequence == n) &&
    (forall v :: v in owners <==> v != "" && exists i | 0 <= i < |facts| :: facts[i].invocationID == v) &&
    (forall i | 0 <= i < |facts| && facts[i].invocationID != "" :: facts[i].invocationID in owners && owners[facts[i].invocationID] == facts[i].requestRef)
  }

  lemma RemembersNext(facts: seq<Fact>, ids: set<string>, sequences: set<nat>, owners: map<string, string>, f: Fact)
    requires Remembers(facts, ids, sequences, owners) && Uncontested(facts)
    ensures Uncontested(facts + [f]) <==>
            f.id !in ids && f.sequence !in sequences && (f.invocationID != "" && f.invocationID in owners ==> owners[f.invocationID] == f.requestRef)
    ensures Uncontested(facts + [f]) ==>
              Remembers(facts + [f], ids + {f.id}, sequences + {f.sequence}, if f.invocationID == "" then owners else owners[f.invocationID := f.requestRef])
  {
    var all, n := facts + [f], |facts|;
    assert all[n] == f && forall i | 0 <= i < n :: all[i] == facts[i];
    if Uncontested(all) {
      assert forall i | 0 <= i < n :: Apart(all[i], all[n]);
    }
  }

  lemma UncontestedPart(facts: seq<Fact>, more: seq<Fact>)
    requires Uncontested(facts + more)
    ensures Uncontested(facts)
  {
    var all := facts + more;
    assert forall i | 0 <= i < |facts| :: all[i] == facts[i];
  }

  /** Lists the facts of every work, view by view, and stops at the first that contradicts an earlier one. */
  method ListFacts(views: seq<seq<Fact>>) returns (ok: bool)
    ensures ok <==> Uncontested(Flatten(views))
  {
    hide Remembers, Uncontested;
    var ids: set<string>, sequences: set<nat>, owners: map<string, string> := {}, {}, map[];
    NothingListed();
    for i := 0 to |views|
      invariant Remembers(Flatten(views[..i]), ids, sequences, owners) && Uncontested(Flatten(views[..i]))
    {
      var view := views[i];
      assert views[..i + 1][..i] == views[..i] && Flatten(views[..i]) + view[..0] == Flatten(views[..i]);
      for k := 0 to |view|
        invariant Remembers(Flatten(views[..i]) + view[..k], ids, sequences, owners) && Uncontested(Flatten(views[..i]) + view[..k])
      {
        var f := view[k];
        ghost var before := Flatten(views[..i]) + view[..k];
        RemembersNext(before, ids, sequences, owners, f);
        assert before + [f] == Flatten(views[..i]) + view[..k + 1];
        if f.id in ids || f.sequence in sequences || (f.invocationID != "" && f.invocationID in owners && owners[f.invocationID] != f.requestRef) {
          ListedWithin(views, i, k + 1);
          return false;
        }
        ids, sequences := ids + {f.id}, sequences + {f.sequence};
        if f.invocationID != "" { owners := owners[f.invocationID := f.requestRef]; }
      }
      assert Flatten(views[..i]) + view[..|view|] == Flatten(views[..i + 1]);
    }
    assert views[..|views|] == views;
    ok := true;
  }

  lemma NothingListed()
    ensures Remembers([], {}, {}, map[]) && Uncontested([])
  {
  }

  lemma {:induction false} FlattenSplits(views: seq<seq<Fact>>, n: nat)
    requires n <= |views|
    ensures exists rest :: Flatten(views) == Flatten(views[..n]) + rest
    decreases |views|
  {
    if n == |views| {
      assert views[..n] == views && Flatten(views) == Flatten(views[..n]) + [];
    } else {
      var m := |views| - 1;
      FlattenSplits(views[..m], n);
      assert views[..m][..n] == views[..n];
      var rest :| Flatten(views[..m]) == Flatten(views[..n]) + rest;
      assert Flatten(views) == Flatten(views[..n]) + (rest + views[m]);
    }
  }

  /** A contradiction in a part contradicts the whole. */
  lemma ListedWithin(views: seq<seq<Fact>>, i: nat, k: nat)
    requires i < |views| && k <= |views[i]| && !Uncontested(Flatten(views[..i]) + views[i][..k])
    ensures !Uncontested(Flatten(views))
  {
    hide Uncontested;
    FlattenSplits(views, i + 1);
    assert views[..i + 1][..i] == views[..i];
    var rest :| Flatten(views) == Flatten(views[..i + 1]) + rest;
    var part := Flatten(views[..i]) + views[i][..k];
    assert Flatten(views) == part + (views[i][k..] + rest);
    if Uncontested(Flatten(views)) { UncontestedPart(part, views[i][k..] + rest); }
  }

  /** The works of one journal, one view for each request. */
  function ViewsOf(facts: seq<Fact>, refs: seq<string>): seq<seq<Fact>> { seq(|refs|, i requires 0 <= i < |refs| => ForRequestOf(facts, refs[i])) }

  lemma {:induction false} ViewIsUncontested(reg: Registry, start: nat, facts: seq<Fact>, ref: string)
    requires Grown(reg, start, facts) && ClaimsPaired(reg)
    ensures Uncontested(ForRequestOf(facts, ref))
  {
    hide Admissible, NextID, ClaimsPaired;
    if facts != [] {
      var n := |facts| - 1;
      ViewIsUncontested(reg, start, facts[..n], ref);
      var view := ForRequestOf(facts[..n], ref);
      ViewBelongs(facts[..n], ref);
      forall i | 0 <= i < |view| && facts[n].requestRef == ref
        ensures Apart(view[i], facts[n])
      {
        var j :| 0 <= j < n && facts[..n][j] == view[i];
        IDsDistinct(reg, start, facts, j, n);
        FactAt(reg, start, facts, j);
        FactAt(reg, start, facts, n);
      }
    }
  }

  lemma {:induction false} InFlatten(views: seq<seq<Fact>>, f: Fact)
    requires f in Flatten(views)
    ensures exists v | 0 <= v < |views| :: f in views[v]
  {
    var n := |views| - 1;
    if f !in views[n] {
      InFlatten(views[..n], f);
      var v :| 0 <= v < n && f in views[..n][v];
      assert f in views[v];
    }
  }

  /** The client's checks never fire on the works of one journal. */
  lemma {:induction false} JournalListsCleanly(reg: Registry, start: nat, facts: seq<Fact>, refs: seq<string>)
    requires Grown(reg, start, facts) && ClaimsPaired(reg) && forall i, j | 0 <= i < j < |refs| :: refs[i] != refs[j]
    ensures Uncontested(Flatten(ViewsOf(facts, refs)))
  {
    hide Grown, ClaimsPaired, ForRequestOf;
    if refs != [] {
      var n := |refs| - 1;
      JournalListsCleanly(reg, start, facts, refs[..n]);
      ViewIsUncontested(reg, start, facts, refs[n]);
      var views := ViewsOf(facts, refs);
      assert views[..n] == ViewsOf(facts, refs[..n]);
      var earlier, last := Flatten(views[..n]), views[n];
      forall f, g | f in earlier && g in last
        ensures Apart(f, g)
      {
        InFlatten(views[..n], f);
        var v :| 0 <= v < n && f in views[..n][v];
        RequestsAreIsolated(reg, start, facts, refs[v], refs[n], f, g);
      }
    }
  }
}
