/** Which sources a search runs, and in what order, from the ids a caller selected. */
module Plan {
  import Ordering

  datatype CatalogSource = CatalogSource(id: string, search: bool)

  datatype SearchPlan = SearchPlan(pending: seq<string>, missing: seq<string>)

  function Ids(sources: seq<CatalogSource>): seq<string> {
    seq(|sources|, i requires 0 <= i < |sources| => sources[i].id)
  }

  /** The catalog indexed by id; a later source with the same id replaces an earlier one. */
  function ById(sources: seq<CatalogSource>): map<string, CatalogSource> {
    if sources == [] then map[]
    else ById(sources[..|sources| - 1])[sources[|sources| - 1].id := sources[|sources| - 1]]
  }

  function Filter(ids: seq<string>, keep: set<string>): (r: seq<string>)
    ensures forall x :: x in r <==> x in ids && x in keep
    ensures Ordering.Ascending(ids) ==> Ordering.Ascending(r)
  {
    if ids == [] then []
    else
      assert forall x :: x in ids <==> x == ids[0] || x in ids[1..];
      var rest := Filter(ids[1..], keep);
      if ids[0] in keep then
        assert Ordering.Ascending(ids) ==> forall j :: 0 <= j < |rest| ==> Ordering.Less(ids[0], rest[j]) by {
          forall j | 0 <= j < |rest| && Ordering.Ascending(ids)
            ensures Ordering.Less(ids[0], rest[j])
          {
            assert rest[j] in rest;
            var k :| 1 <= k < |ids| && ids[k] == rest[j];
          }
        }
        [ids[0]] + rest
      else rest
  }

  /** Everything in the catalog when nothing is selected. */
  function SelectedIds(sources: seq<CatalogSource>, selected: seq<string>): seq<string> {
    Ordering.SortDedup(if selected == [] then Ids(sources) else selected)
  }

  function Searchable(sources: seq<CatalogSource>): set<string> {
    set id | id in ById(sources) && ById(sources)[id].search
  }

  function Unregistered(sources: seq<CatalogSource>, selected: seq<string>): set<string> {
    set id | id in selected && id !in ById(sources)
  }

  function PlanSearch(sources: seq<CatalogSource>, selected: seq<string>): SearchPlan {
    SearchPlan(
      Filter(SelectedIds(sources, selected), Searchable(sources)),
      Ordering.SortDedup(Filter(selected, Unregistered(sources, selected))))
  }

  /** The plan runs every selected searchable source once, in id order, and reports every unknown id once. */
  lemma PlanMeans(sources: seq<CatalogSource>, selected: seq<string>)
    ensures var p := PlanSearch(sources, selected);
            && Ordering.Ascending(p.pending) && Ordering.Ascending(p.missing)
            && (forall id :: id in p.pending <==>
                  (selected == [] || id in selected) && id in ById(sources) && ById(sources)[id].search)
            && (forall id :: id in p.missing <==> id in selected && id !in ById(sources))
  {
    IndexHasAllIds(sources);
  }

  lemma {:induction false} IndexHasAllIds(sources: seq<CatalogSource>)
    ensures forall id :: id in ById(sources) <==> id in Ids(sources)
    ensures forall id :: id in ById(sources) ==> ById(sources)[id] in sources && ById(sources)[id].id == id
  {
    if sources != [] {
      var init := sources[..|sources| - 1];
      IndexHasAllIds(init);
      assert sources == init + [sources[|sources| - 1]];
      assert Ids(sources) == Ids(init) + [sources[|sources| - 1].id];
    }
  }

  /** The last catalog entry of this id, which is the one that counts. */
  ghost predicate LastEntry(sources: seq<CatalogSource>, id: string, i: nat) {
    i < |sources| && sources[i].id == id && forall j | i < j < |sources| :: sources[j].id != id
  }

  lemma {:induction false} IndexIsLast(sources: seq<CatalogSource>, id: string, i: nat)
    ensures LastEntry(sources, id, i) ==> id in ById(sources) && ById(sources)[id] == sources[i]
    decreases |sources|
  {
    if sources != [] && i < |sources| {
      var init := sources[..|sources| - 1];
      if i < |init| {
        IndexIsLast(init, id, i);
        assert LastEntry(sources, id, i) ==> LastEntry(init, id, i) && sources[|sources| - 1].id != id;
      }
    }
  }

  lemma {:induction false} LastEntryExists(sources: seq<CatalogSource>, id: string)
    requires exists i | 0 <= i < |sources| :: sources[i].id == id
    ensures exists i: nat :: LastEntry(sources, id, i)
    decreases |sources|
  {
    var last := |sources| - 1;
    if sources[last].id == id {
      assert LastEntry(sources, id, last);
    } else {
      var init := sources[..last];
      var k :| 0 <= k < |sources| && sources[k].id == id;
      assert init[k].id == id;
      LastEntryExists(init, id);
      var i: nat :| LastEntry(init, id, i);
      assert LastEntry(sources, id, i);
    }
  }

  /**
   * The plan, read off the catalog: it runs each selected id whose last entry is searchable, and
   * reports each selected id without an entry. Both lists ascend.
   */
  lemma PlanIsChosen(sources: seq<CatalogSource>, selected: seq<string>, id: string)
    ensures var p := PlanSearch(sources, selected);
            && Ordering.Ascending(p.pending) && Ordering.Ascending(p.missing)
            && (id in p.pending <==> (selected == [] || id in selected) && exists i: nat :: LastEntry(sources, id, i) && sources[i].search)
            && (id in p.missing <==> id in selected && forall i | 0 <= i < |sources| :: sources[i].id != id)
  {
    hide PlanSearch, ById;
    PlanMeans(sources, selected);
    IndexHasAllIds(sources);
    assert forall i | 0 <= i < |sources| :: Ids(sources)[i] == sources[i].id;
    if i: nat :| LastEntry(sources, id, i) {
      IndexIsLast(sources, id, i);
    }
    if id in ById(sources) {
      LastEntryExists(sources, id);
      var i: nat :| LastEntry(sources, id, i);
      IndexIsLast(sources, id, i);
    }
  }

  /** Neither the order nor the repetition of the selected ids matters. */
  lemma PlanDependsOnTheSet(sources: seq<CatalogSource>, a: seq<string>, b: seq<string>)
    requires forall id :: id in a <==> id in b
    ensures PlanSearch(sources, a) == PlanSearch(sources, b)
  {
    assert a != [] ==> a[0] in b;
    assert b != [] ==> b[0] in a;
    PlanMeans(sources, a);
    PlanMeans(sources, b);
    var p := PlanSearch(sources, a);
    var q := PlanSearch(sources, b);
    Ordering.AscendingUnique(p.pending, q.pending);
    Ordering.AscendingUnique(p.missing, q.missing);
  }
}
