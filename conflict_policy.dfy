/**
 * The policy applied when the table builder writes a production into a cell
 * M[A, t] that may already be filled, and the conflict record it logs.
 */
module ConflictPolicy {
  import opened Wrappers
  import opened GrammarSpec

  /** Resolved: an ε-production gave way to a non-ε one; Ignored: an ε-production was
      refused over a non-ε one; Unresolved: a genuine LL(1) conflict, first writer kept. */
  datatype ConflictKind = Resolved | Ignored | Unresolved

  datatype Conflict = Conflict(kind: ConflictKind, nonTerminal: string, terminal: string,
                               existing: Production, candidate: Production)

  /**
   * Offering `candidate` to a cell that holds `existing`: the production the cell
   * holds afterwards, and the kind of conflict logged, if any.
   */
  function Resolve(existing: Option<Production>, candidate: Production): (Production, Option<ConflictKind>)
  {
    match existing
    case None => (candidate, None)
    case Some(e) =>
      if e == candidate then (candidate, None)
      else if IsEpsilonProduction(e) && !IsEpsilonProduction(candidate) then (candidate, Some(Resolved))
      else if !IsEpsilonProduction(e) && IsEpsilonProduction(candidate) then (e, Some(Ignored))
      else (e, Some(Unresolved))
  }

  /**
   * What the policy guarantees for a single offer: the cell ends up holding the
   * old or the new production; a conflict is logged exactly when a different
   * production was already there; the cell changes exactly when the conflict is
   * Resolved (or the cell was empty); a non-ε production is never displaced.
   */
  lemma ResolveProperties(existing: Option<Production>, candidate: Production)
    ensures var (w, k) := Resolve(existing, candidate);
      && (w == candidate || (existing.Some? && w == existing.value))
      && (k.Some? <==> existing.Some? && existing.value != candidate)
      && (existing.Some? ==> (w != existing.value <==> k == Some(Resolved)))
      && (existing.Some? && !IsEpsilonProduction(existing.value) ==> w == existing.value)
      && (existing.Some? && k.Some? ==>
            (k == Some(Ignored) <==> !IsEpsilonProduction(existing.value) && IsEpsilonProduction(candidate)))
  {
  }

  /** The cell after a sequence of offers, made in order into an empty cell. */
  function CellAfter(offers: seq<Production>): Option<Production>
  {
    if offers == [] then None
    else Some(Resolve(CellAfter(offers[..|offers| - 1]), offers[|offers| - 1]).0)
  }

  /** Reference definition: the first non-ε production offered, or else the ε-production. */
  function Preferred(offers: seq<Production>): Production
    requires offers != []
  {
    if |offers| == 1 || !IsEpsilonProduction(offers[0]) then offers[0] else Preferred(offers[1..])
  }

  lemma {:induction false} PreferredSnoc(offers: seq<Production>, c: Production)
    requires offers != []
    ensures !IsEpsilonProduction(Preferred(offers)) ==> Preferred(offers + [c]) == Preferred(offers)
    ensures IsEpsilonProduction(Preferred(offers)) ==> Preferred(offers + [c]) == c
  {
    if |offers| > 1 && IsEpsilonProduction(offers[0]) {
      assert (offers + [c])[1..] == offers[1..] + [c];
      PreferredSnoc(offers[1..], c);
    } else if |offers| == 1 && IsEpsilonProduction(offers[0]) {
      assert (offers + [c])[1..] == [c];
    }
  }

  /**
   * Whatever the order of offers, a cell ends up with the first non-ε production
   * offered to it, and with the ε-production only when nothing else was offered.
   */
  lemma {:induction false} CellAfterIsPreferred(offers: seq<Production>)
    requires offers != []
    ensures CellAfter(offers) == Some(Preferred(offers))
    decreases |offers|
  {
    if |offers| > 1 {
      var init, c := offers[..|offers| - 1], offers[|offers| - 1];
      assert offers == init + [c];
      CellAfterIsPreferred(init);
      PreferredSnoc(init, c);
      var w := Preferred(init);
      if IsEpsilonProduction(w) && IsEpsilonProduction(c) {
        assert w == c;
      }
    }
  }
}
