/** Reconciliation of the human and the AI species labels of one image sequence
    (the body of `find_overlap_classification`, API.py:105-128). */
module Reconcile {

  /** The three configured pseudo-species IDs. */
  datatype Sentinels = Sentinels(unclassified: int, nothing: int, noAgreement: int)

  /** The elements of a list of species IDs, as Python's `set(...)` sees them. */
  function Elems(xs: seq<int>): (s: set<int>)
    ensures forall x :: x in s <==> x in xs
  {
    set x | x in xs
  }

  /** A list in which no species ID occurs twice, as `list(some_set)` always is. */
  predicate NoDuplicates(xs: seq<int>) {
    forall i, j :: 0 <= i < j < |xs| ==> xs[i] != xs[j]
  }

  /** The AI species after the rule "an AI 'unclassified' counts as 'nothing'". */
  function Substituted(ai: set<int>, ids: Sentinels): (w: set<int>)
    ensures ids.unclassified !in ai ==> w == ai
    ensures ids.unclassified in ai ==> ids.nothing in w
    ensures ids.unclassified in ai && ids.unclassified != ids.nothing ==> ids.unclassified !in w
    ensures forall x :: x != ids.unclassified && x != ids.nothing ==> (x in w <==> x in ai)
  {
    if ids.unclassified in ai then (ai - {ids.unclassified}) + {ids.nothing} else ai
  }

  /** Species `x` is one the human and the (substituted) AI labels agree on, stated
      directly on the inputs: the human saw it, and the AI either reported it (other
      than as 'unclassified') or reported 'unclassified' while `x` is 'nothing'. */
  predicate Agrees(x: int, human: set<int>, ai: set<int>, ids: Sentinels) {
    x in human && ((x in ai && x != ids.unclassified) || (x == ids.nothing && ids.unclassified in ai))
  }

  /** When no species agrees, the intersection of the human set and the substituted AI set is empty. */
  lemma NoAgreementMeansEmpty(human: set<int>, ai: set<int>, ids: Sentinels)
    ensures (forall x :: !Agrees(x, human, ai, ids)) ==> human * Substituted(ai, ids) == {}
  {
    var both := human * Substituted(ai, ids);
    forall x | x in both ensures Agrees(x, human, ai, ids) {
    }
    if forall x :: !Agrees(x, human, ai, ids) {
      assert forall x :: x in both <==> x in {};
    }
  }

  /** The species set sent upstream: the true agreement, or the no-agreement sentinel alone. */
  function Agreed(human: set<int>, ai: set<int>, ids: Sentinels): (r: set<int>)
    ensures r != {}
    ensures (exists x :: Agrees(x, human, ai, ids)) ==> forall x :: x in r <==> Agrees(x, human, ai, ids)
    ensures (forall x :: !Agrees(x, human, ai, ids)) ==> r == {ids.noAgreement}
  {
    var both := human * Substituted(ai, ids);
    assert forall x :: x in both <==> Agrees(x, human, ai, ids);
    if both == {} then {ids.noAgreement}
    else
      NoAgreementMeansEmpty(human, ai, ids);
      both
  }

  /** The reconciliation as the handler runs it: the species lists arrive as JSON
      lists (order and repetitions arbitrary), the AI list is copied into a working
      set that the substitution edits in place, and the intersection is turned back
      into a list. The list's order is not specified by the source; its elements are. */
  method ReconcileSpecies(human: seq<int>, ai: seq<int>, ids: Sentinels) returns (species: seq<int>)
    ensures species != []
    ensures NoDuplicates(species)
    ensures Elems(species) == Agreed(Elems(human), Elems(ai), ids)
  {
    // ai_classifications = set(ai_species)
    var work: set<int> := {};
    for i := 0 to |ai|
      invariant work == Elems(ai[..i])
    {
      assert ai[..i + 1] == ai[..i] + [ai[i]];
      work := work + {ai[i]};
    }
    assert ai[..|ai|] == ai;
    if ids.unclassified in work {
      work := work - {ids.unclassified};
      work := work + {ids.nothing};
    }
    assert work == Substituted(Elems(ai), ids);
    // list(set(human_species) & ai_classifications)
    species := [];
    for i := 0 to |human|
      invariant NoDuplicates(species)
      invariant Elems(species) == Elems(human[..i]) * work
    {
      assert human[..i + 1] == human[..i] + [human[i]];
      if human[i] in work && human[i] !in species {
        species := species + [human[i]];
      }
    }
    assert human[..|human|] == human;
    assert Elems(species) == Elems(human) * Substituted(Elems(ai), ids);
    if species == [] {
      assert Elems(species) == {};
      species := [ids.noAgreement];
    } else {
      assert species[0] in Elems(species);
    }
  }

  /** Reordering or repeating the entries of either input list leaves the agreed set unchanged. */
  lemma PermutationInvariant(h1: seq<int>, h2: seq<int>, a1: seq<int>, a2: seq<int>, ids: Sentinels)
    requires forall x :: x in h1 <==> x in h2
    requires forall x :: x in a1 <==> x in a2
    ensures Agreed(Elems(h1), Elems(a1), ids) == Agreed(Elems(h2), Elems(a2), ids)
  {
    SameEntriesSameElems(h1, h2);
    SameEntriesSameElems(a1, a2);
  }

  lemma SameEntriesSameElems(xs: seq<int>, ys: seq<int>)
    requires forall x :: x in xs <==> x in ys
    ensures Elems(xs) == Elems(ys)
  {
    forall x ensures x in Elems(xs) <==> x in Elems(ys) {
      assert x in xs <==> x in ys;
    }
  }

  /** Every species in the result is one the human and the AI agree on (counting an AI
      'unclassified' as 'nothing'), unless it is the no-agreement fallback of a request on
      which nothing agrees. A real species whose ID equals the sentinel is not excluded. */
  lemma AgreedSound(human: set<int>, ai: set<int>, ids: Sentinels, x: int)
    requires x in Agreed(human, ai, ids)
    ensures Agrees(x, human, ai, ids) || (x == ids.noAgreement && forall y :: !Agrees(y, human, ai, ids))
  {
  }

  /** Disjoint label sets never agree. */
  lemma DisjointMeansNoAgreement(human: set<int>, ai: set<int>, ids: Sentinels)
    requires human * ai == {}
    requires !(ids.unclassified in ai && ids.nothing in human)
    ensures Agreed(human, ai, ids) == {ids.noAgreement}
  {
  }

  /** The substitution lets 'nothing' count towards agreement although the AI never named it. */
  lemma UnclassifiedAgreesWithNothing(human: set<int>, ai: set<int>, ids: Sentinels)
    requires ids.unclassified in ai && ids.nothing in human
    ensures ids.nothing in Agreed(human, ai, ids)
  {
  }

  /** Three worked examples with sentinels unclassified = 9, nothing = 10, no-agreement = 99. */
  lemma WorkedExamples()
    ensures Agreed({1, 2, 3}, {2, 4}, Sentinels(9, 10, 99)) == {2}
    ensures Agreed({5}, {9}, Sentinels(9, 10, 99)) == {99}
    ensures Agreed({10}, {9}, Sentinels(9, 10, 99)) == {10}
  {
    var ids := Sentinels(9, 10, 99);
    assert Agrees(2, {1, 2, 3}, {2, 4}, ids);
    assert forall x :: !Agrees(x, {5}, {9}, ids);
    assert Agrees(10, {10}, {9}, ids);
  }
}
