/**
 * The grammar analyser: FIRST and FOLLOW sets computed in place by
 * `while (changed)` fixed-point loops, and the LL(1) table filled under the
 * conflict policy, with every conflict appended to a log.
 */
module GrammarAnalyzer {
  import opened Wrappers
  import opened GrammarSpec
  import opened ConflictPolicy
  import opened TableSpec

  class LL1GrammarAnalyzer {
    const grammar: Grammar
    const nonTerminals: set<string>
    /** The nonterminals in the fixed (but unspecified) order in which the source's hash map yields its keys. */
    const order: seq<string>

    var first: SymbolSets
    var follow: SymbolSets
    var parsingTable: Table
    var conflicts: seq<Conflict>

    /** The fixed part: the nonterminals are the production map's keys, each listed once in `order`. */
    ghost predicate Shape() {
      && nonTerminals == grammar.productions.Keys
      && (forall n :: n in order <==> n in nonTerminals)
      && (forall i, j :: 0 <= i < j < |order| ==> order[i] != order[j])
    }

    ghost predicate Valid()
      reads this
    {
      && Shape()
      && first.Keys == nonTerminals && follow.Keys == nonTerminals
      && Within(grammar, first, FirstUniverse(grammar))
      && Within(grammar, follow, FollowUniverse(grammar))
      && parsingTable.Keys <= nonTerminals
    }

    /** The nonterminals are the keys of the production map; every FIRST and FOLLOW set starts empty. */
    constructor (productions: map<string, seq<Production>>, terminals: set<string>, startSymbol: string)
      ensures Valid()
      ensures grammar == Grammar(productions, terminals, startSymbol)
      ensures nonTerminals == productions.Keys
      ensures forall n :: n in nonTerminals ==> first[n] == {} && follow[n] == {}
      ensures parsingTable == map[] && conflicts == []
    {
      var rest, ord := productions.Keys, [];
      while rest != {}
        invariant rest !! (set n | n in ord)
        invariant rest + (set n | n in ord) == productions.Keys
        invariant forall i, j :: 0 <= i < j < |ord| ==> ord[i] != ord[j]
        decreases rest
      {
        var n :| n in rest;
        ord, rest := ord + [n], rest - {n};
      }
      grammar := Grammar(productions, terminals, startSymbol);
      nonTerminals := productions.Keys;
      order := ord;
      first := map n | n in productions.Keys :: {};
      follow := map n | n in productions.Keys :: {};
      parsingTable := map[];
      conflicts := [];
    }

    /** FIRST of a symbol sequence under the current FIRST sets. */
    method FirstOf(symbols: seq<string>) returns (result: set<string>)
      requires Shape() && Covers(grammar, first)
      ensures result == SeqFirst(grammar, first, symbols)
    {
      if symbols == [] {
        return {Epsilon};
      }
      result := {};
      var i := 0;
      while i < |symbols|
        invariant 0 <= i <= |symbols|
        invariant Epsilon !in result
        invariant result + ScanFirst(grammar, first, symbols[i..]) == ScanFirst(grammar, first, symbols)
      {
        var symbol := symbols[i];
        assert symbols[i..][0] == symbol && symbols[i..][1..] == symbols[i + 1..];
        if symbol in grammar.terminals {
          result := result + {symbol};
          break;
        } else if symbol in nonTerminals {
          var firstOfSymbol := first[symbol];
          result := result + firstOfSymbol;
          result := result - {Epsilon};
          if Epsilon !in firstOfSymbol {
            break;
          }
        }
        i := i + 1;
      }
      if AllNullable(grammar, first, symbols) {
        result := result + {Epsilon};
      }
    }

    /**
     * One step of the FIRST pass (the inner loop over A's productions): adds
     * FIRST(α) to FIRST(A) for every production A → α, touching no other set.
     * Every family of sets that solves the FIRST equations and contains the old
     * sets contains the new ones too.
     */
    method AddProductionFirsts(nt: string)
      requires Valid() && nt in nonTerminals
      modifies this`first
      ensures Valid()
      ensures Below(grammar, old(first), first) && SameExcept(grammar, old(first), first, nt)
      ensures forall p :: p in grammar.productions[nt] ==> SeqFirst(grammar, old(first), p) <= first[nt]
      ensures forall base :: BelowFirstSolutions(grammar, base, old(first)) ==> BelowFirstSolutions(grammar, base, first)
    {
      var productions := grammar.productions[nt];
      var j := 0;
      while j < |productions|
        invariant 0 <= j <= |productions|
        invariant Valid()
        invariant Below(grammar, old(first), first) && SameExcept(grammar, old(first), first, nt)
        invariant forall p :: p in productions[..j] ==> SeqFirst(grammar, old(first), p) <= first[nt]
        invariant forall base :: BelowFirstSolutions(grammar, base, old(first)) ==> BelowFirstSolutions(grammar, base, first)
      {
        var production := productions[j];
        var firstOfProduction := FirstOf(production);
        ghost var prev := first;
        forall base | BelowFirstSolutions(grammar, base, prev)
          ensures BelowFirstSolutions(grammar, base, prev[nt := prev[nt] + firstOfProduction])
        {
          FirstUpdateStaysBelow(grammar, base, prev, nt, production);
        }
        FirstUpdate(grammar, old(first), prev, nt, production);
        first := first[nt := first[nt] + firstOfProduction];
        assert productions[..j + 1] == productions[..j] + [production];
        j := j + 1;
      }
      assert productions[..j] == productions;
    }

    /**
     * The FIRST fixed point. Sets only grow and stay within the terminals plus ε;
     * on exit FIRST(α) ⊆ FIRST(A) for every production A → α, and the result is
     * the least such family above the sets it started from.
     */
    method CalculateFirst()
      requires Valid()
      modifies this`first
      ensures Valid()
      ensures Below(grammar, old(first), first)
      ensures IsFirstSolution(grammar, first)
      ensures forall s :: IsFirstSolution(grammar, s) && Below(grammar, old(first), s) ==> Below(grammar, first, s)
    {
      assert BelowFirstSolutions(grammar, first, first);
      var changed := true;
      while changed
        invariant Valid()
        invariant Below(grammar, old(first), first)
        invariant !changed ==> IsFirstSolution(grammar, first)
        invariant BelowFirstSolutions(grammar, old(first), first)
        decreases changed, Missing(grammar, first, FirstUniverse(grammar))
      {
        changed := false;
        ghost var pass := first;
        ghost var wn: string, wt: string := "", "";
        var k := 0;
        while k < |order|
          invariant 0 <= k <= |order|
          invariant Valid()
          invariant Below(grammar, old(first), first) && Below(grammar, pass, first)
          invariant !changed ==> first == pass
          invariant changed ==> wn in nonTerminals && wt in first[wn] && wt !in pass[wn] && wt in FirstUniverse(grammar)
          invariant !changed ==> forall i, p :: 0 <= i < k && p in grammar.productions[order[i]] ==> SeqFirst(grammar, first, p) <= first[order[i]]
          invariant BelowFirstSolutions(grammar, old(first), first)
        {
          var nt := order[k];
          var beforeSize := |first[nt]|;
          ghost var before := first;
          AddProductionFirsts(nt);
          SubsetCardinality(before[nt], first[nt]);
          if |first[nt]| > beforeSize {
            changed := true;
            wn := nt;
            wt :| wt in first[nt] - before[nt];
          } else {
            SameExceptEqual(grammar, before, first, nt);
          }
          k := k + 1;
        }
        if changed {
          MissingShrinks(grammar, pass, first, FirstUniverse(grammar), wn, wt);
        }
      }
    }
  
    /**
     * The FOLLOW update for the symbol at position i of A → α (the body of the
     * innermost loop of the FOLLOW pass); `grew` tells whether the updated set
     * got larger.
     */
    method AddFollowsAt(nt: string, production: Production, i: nat) returns (grew: bool)
      requires Shape() && first.Keys == nonTerminals && follow.Keys == nonTerminals
      requires nt in nonTerminals && i < |production|
      modifies this`follow
      ensures follow == FollowStep(grammar, first, old(follow), nt, production, i)
      ensures grew <==> production[i] in nonTerminals && |follow[production[i]]| > |old(follow)[production[i]]|
    {
      var symbol := production[i];
      grew := false;
      if symbol in nonTerminals {
        var beforeSize := |follow[symbol]|;
        if i + 1 < |production| {
          var beta := production[i + 1..];
          var firstBeta := FirstOf(beta);
          follow := follow[symbol := follow[symbol] + firstBeta];
          follow := follow[symbol := follow[symbol] - {Epsilon}];
          ghost var f2 := follow;
          if Epsilon in firstBeta {
            follow := follow[symbol := follow[symbol] + follow[nt]];
          }
          assert follow == if Epsilon in firstBeta then f2[symbol := f2[symbol] + f2[nt]] else f2;
        } else {
          follow := follow[symbol := follow[symbol] + follow[nt]];
        }
        if |follow[symbol]| > beforeSize {
          grew := true;
        }
      }
    }

    /**
     * The FOLLOW updates for every position of one production A → α (the
     * innermost loop of the FOLLOW pass). `grew` reports whether any FOLLOW set
     * got larger; when none did, nothing changed and the FOLLOW equation holds
     * at every position of α.
     */
    method AddFollowsIn(nt: string, production: Production) returns (grew: bool)
      requires Valid() && nt in nonTerminals && production in grammar.productions[nt]
      modifies this`follow
      ensures Valid()
      ensures FollowAdvanced(grammar, first, old(follow), follow, grew)
      ensures !grew ==> forall i :: 0 <= i < |production| ==> FollowRuleHolds(grammar, first, follow, nt, production, i)
    {
      grew := false;
      FollowAdvancedRefl(grammar, first, follow);
      var i := 0;
      while i < |production|
        invariant 0 <= i <= |production|
        invariant Valid()
        invariant FollowAdvanced(grammar, first, old(follow), follow, grew)
        invariant !grew ==> forall j :: 0 <= j < i ==> FollowRuleHolds(grammar, first, follow, nt, production, j)
      {
        ghost var before := follow;
        var grewHere := AddFollowsAt(nt, production, i);
        FollowStepAdvances(grammar, first, before, nt, production, i);
        FollowAdvancedTrans(grammar, first, old(follow), before, follow, grew, grewHere);
        grew := grew || grewHere;
        i := i + 1;
      }
    }
  
    /**
     * The FOLLOW updates for every production of one nonterminal A (the middle
     * loop of the FOLLOW pass); when no set grew, the FOLLOW equations of all
     * of A's productions hold.
     */
    method AddFollowsOf(nt: string) returns (grew: bool)
      requires Valid() && nt in nonTerminals
      modifies this`follow
      ensures Valid()
      ensures FollowAdvanced(grammar, first, old(follow), follow, grew)
      ensures !grew ==> forall p, i :: p in grammar.productions[nt] && 0 <= i < |p| ==> FollowRuleHolds(grammar, first, follow, nt, p, i)
    {
      grew := false;
      FollowAdvancedRefl(grammar, first, follow);
      var productions := grammar.productions[nt];
      var j := 0;
      while j < |productions|
        invariant 0 <= j <= |productions|
        invariant Valid()
        invariant FollowAdvanced(grammar, first, old(follow), follow, grew)
        invariant !grew ==> forall jj, i :: 0 <= jj < j && 0 <= i < |productions[jj]| ==> FollowRuleHolds(grammar, first, follow, nt, productions[jj], i)
      {
        ghost var before := follow;
        var grewHere := AddFollowsIn(nt, productions[j]);
        FollowAdvancedTrans(grammar, first, old(follow), before, follow, grew, grewHere);
        grew := grew || grewHere;
        j := j + 1;
      }
    }

    /**
     * One pass of the FOLLOW loop over every nonterminal in map order; when no
     * set grew, the sets are unchanged and solve the FOLLOW equations.
     */
    method FollowPass() returns (changed: bool)
      requires Valid()
      modifies this`follow
      ensures Valid()
      ensures FollowAdvanced(grammar, first, old(follow), follow, changed)
      ensures !changed ==> forall a, p, i :: a in grammar.productions && p in grammar.productions[a] && 0 <= i < |p| ==> FollowRuleHolds(grammar, first, follow, a, p, i)
    {
      changed := false;
      FollowAdvancedRefl(grammar, first, follow);
      var k := 0;
      while k < |order|
        invariant 0 <= k <= |order|
        invariant Valid()
        invariant FollowAdvanced(grammar, first, old(follow), follow, changed)
        invariant !changed ==> forall kk, p, i :: 0 <= kk < k && p in grammar.productions[order[kk]] && 0 <= i < |p| ==> FollowRuleHolds(grammar, first, follow, order[kk], p, i)
      {
        ghost var before := follow;
        var grew := AddFollowsOf(order[k]);
        FollowAdvancedTrans(grammar, first, old(follow), before, follow, changed, grew);
        if grew {
          changed := true;
        }
        k := k + 1;
      }
    }

    /**
     * The FOLLOW fixed point. EOF is put in FOLLOW of the start symbol, and the
     * pass over every position of every production repeats until no set grows.
     * On exit every FOLLOW equation holds (for the FIRST sets as they stand)
     * and the result is the least such family above the sets it started from.
     */
    method CalculateFollow()
      requires Valid() && grammar.start in nonTerminals
      modifies this`follow
      ensures Valid()
      ensures Below(grammar, old(follow), follow)
      ensures Eof in follow[grammar.start]
      ensures IsFollowSolution(grammar, first, follow)
      ensures forall s :: IsFollowSolution(grammar, first, s) && Below(grammar, old(follow), s) ==> Below(grammar, follow, s)
    {
      follow := follow[grammar.start := follow[grammar.start] + {Eof}];
      assert BelowFollowSolutions(grammar, first, old(follow), follow);
      var changed := true;
      while changed
        invariant Valid()
        invariant Below(grammar, old(follow), follow)
        invariant Eof in follow[grammar.start]
        invariant !changed ==> IsFollowSolution(grammar, first, follow)
        invariant BelowFollowSolutions(grammar, first, old(follow), follow)
        decreases changed, Missing(grammar, follow, FollowUniverse(grammar))
      {
        changed := FollowPass();
      }
    }
  
    /**
     * The table builder's state, with the conflicts logged since position
     * `base` of the log and the offers made so far.
     */
    ghost predicate Building(base: nat, offered: set<(string, Production, string)>)
      reads this
    {
      Valid() && base <= |conflicts| && TableState(grammar, first, follow, parsingTable, offered, conflicts[base..])
    }

    /**
     * Writes A → α into M[A][t] under the conflict policy: an empty cell or one
     * holding the same production takes α; otherwise the policy decides and
     * the conflict is appended to the log.
     */
    method PutEntry(nt: string, terminal: string, production: Production)
      requires nt in parsingTable
      modifies this`parsingTable, this`conflicts
      ensures parsingTable == Offer(old(parsingTable), nt, terminal, production).0
      ensures conflicts == old(conflicts) + Offer(old(parsingTable), nt, terminal, production).1
    {
      if terminal in parsingTable[nt] && parsingTable[nt][terminal] != production {
        var existing := parsingTable[nt][terminal];
        var existingIsEps := IsEpsilonProduction(existing);
        var newIsEps := IsEpsilonProduction(production);
        assert parsingTable[nt][terminal := existing] == parsingTable[nt];
        assert parsingTable[nt := parsingTable[nt]] == parsingTable;
        if existingIsEps && !newIsEps {
          parsingTable := parsingTable[nt := parsingTable[nt][terminal := production]];
          conflicts := conflicts + [Conflict(Resolved, nt, terminal, existing, production)];
        } else if !existingIsEps && newIsEps {
          conflicts := conflicts + [Conflict(Ignored, nt, terminal, existing, production)];
        } else {
          conflicts := conflicts + [Conflict(Unresolved, nt, terminal, existing, production)];
        }
      } else {
        parsingTable := parsingTable[nt := parsingTable[nt][terminal := production]];
      }
    }

    /**
     * Offers A → α for every lookahead in `lookaheads`, in the unspecified
     * order in which the source's hash set yields them.
     */
    method PutEntries(nt: string, production: Production, lookaheads: set<string>,
                      ghost base: nat, ghost offered0: set<(string, Production, string)>)
      returns (ghost offered: set<(string, Production, string)>)
      requires Building(base, offered0)
      requires nt in nonTerminals && production in grammar.productions[nt]
      requires forall t :: t in lookaheads ==> t != Epsilon && t in Predict(grammar, first, follow, nt, production)
      modifies this`parsingTable, this`conflicts
      ensures Building(base, offered) && offered0 <= offered
      ensures old(conflicts) <= conflicts
      ensures forall t :: t in lookaheads ==> (nt, production, t) in offered
    {
      offered := offered0;
      var rest := lookaheads;
      while rest != {}
        invariant rest <= lookaheads
        invariant Building(base, offered) && offered0 <= offered
        invariant old(conflicts) <= conflicts
        invariant forall t :: t in lookaheads - rest ==> (nt, production, t) in offered
        decreases rest
      {
        var terminal :| terminal in rest;
        ghost var table, log := parsingTable, conflicts;
        PutEntry(nt, terminal, production);
        OfferKeepsState(grammar, first, follow, table, offered, log[base..], nt, production, terminal);
        SliceAppend(log, base, Offer(table, nt, terminal, production).1);
        offered := offered + {(nt, production, terminal)};
        rest := rest - {terminal};
      }
    }

    /**
     * Fills the cells of one production A → α: every terminal of FIRST(α), and
     * every terminal of FOLLOW(A) when α can derive the empty string.
     */
    method AddProductionEntries(nt: string, production: Production,
                                ghost base: nat, ghost offered0: set<(string, Production, string)>)
      returns (ghost offered: set<(string, Production, string)>)
      requires Building(base, offered0)
      requires nt in nonTerminals && production in grammar.productions[nt]
      modifies this`parsingTable, this`conflicts
      ensures Building(base, offered) && offered0 <= offered
      ensures old(conflicts) <= conflicts
      ensures ProductionOffered(grammar, first, follow, nt, production, offered)
    {
      var firstProd := FirstOf(production);
      offered := PutEntries(nt, production, firstProd - {Epsilon}, base, offered0);
      if Epsilon in firstProd {
        offered := PutEntries(nt, production, follow[nt], base, offered);
      }
    }

    /** Fills the cells of every production of one nonterminal. */
    method AddRowEntries(nt: string, ghost base: nat, ghost offered0: set<(string, Production, string)>)
      returns (ghost offered: set<(string, Production, string)>)
      requires Building(base, offered0) && nt in nonTerminals
      modifies this`parsingTable, this`conflicts
      ensures Building(base, offered) && offered0 <= offered
      ensures old(conflicts) <= conflicts
      ensures RowOffered(grammar, first, follow, nt, offered)
    {
      offered := offered0;
      var productions := grammar.productions[nt];
      var j := 0;
      while j < |productions|
        invariant 0 <= j <= |productions|
        invariant Building(base, offered) && offered0 <= offered
        invariant old(conflicts) <= conflicts
        invariant forall jj :: 0 <= jj < j ==> ProductionOffered(grammar, first, follow, nt, productions[jj], offered)
      {
        ghost var before := offered;
        offered := AddProductionEntries(nt, productions[j], base, offered);
        forall jj | 0 <= jj < j
          ensures ProductionOffered(grammar, first, follow, nt, productions[jj], offered)
        {
          ProductionOfferedGrows(grammar, first, follow, nt, productions[jj], before, offered);
        }
        j := j + 1;
      }
      RowFromProductions(grammar, first, follow, nt, offered);
    }

    /** Puts a fresh, empty row for every nonterminal, replacing any row there was. */
    method ResetRows()
      requires Valid()
      modifies this`parsingTable
      ensures Valid() && parsingTable.Keys == nonTerminals
      ensures forall a :: a in parsingTable ==> parsingTable[a] == map[]
    {
      var k := 0;
      while k < |order|
        invariant 0 <= k <= |order|
        invariant forall n :: n in parsingTable <==> n in old(parsingTable) || n in order[..k]
        invariant forall i :: 0 <= i < k ==> parsingTable[order[i]] == map[]
      {
        parsingTable := parsingTable[order[k] := map[]];
        k := k + 1;
      }
      assert order[..k] == order;
    }

    /** Offers every production of every nonterminal, in map order, for all of its lookaheads. */
    method FillRows(ghost base: nat) returns (ghost offered: set<(string, Production, string)>)
      requires Building(base, {})
      modifies this`parsingTable, this`conflicts
      ensures Building(base, offered)
      ensures old(conflicts) <= conflicts
      ensures forall a :: a in grammar.productions ==> RowOffered(grammar, first, follow, a, offered)
    {
      offered := {};
      var k := 0;
      while k < |order|
        invariant 0 <= k <= |order|
        invariant Building(base, offered)
        invariant old(conflicts) <= conflicts
        invariant forall kk :: 0 <= kk < k ==> RowOffered(grammar, first, follow, order[kk], offered)
      {
        ghost var before := offered;
        offered := AddRowEntries(order[k], base, offered);
        forall kk | 0 <= kk < k
          ensures RowOffered(grammar, first, follow, order[kk], offered)
        {
          RowOfferedGrows(grammar, first, follow, order[kk], before, offered);
        }
        k := k + 1;
      }
    }

    /**
     * Builds the LL(1) table from the current FIRST and FOLLOW sets. Every row
     * is reset, then each production A → α is offered for each of its
     * lookaheads. Afterwards every cell holds one of A's productions that has
     * the cell's terminal as a lookahead, every lookahead has a cell, a non-ε
     * production always wins over the ε-production, each logged conflict is
     * genuine, and no conflict is logged exactly when the grammar is LL(1).
     */
    method BuildParsingTable()
      requires Valid()
      modifies this`parsingTable, this`conflicts
      ensures Valid() && parsingTable.Keys == nonTerminals
      ensures CellsJustified(grammar, first, follow, parsingTable)
      ensures CellsComplete(grammar, first, follow, parsingTable)
      ensures forall a, p, t ::
        && a in grammar.productions && p in grammar.productions[a]
        && t in Predict(grammar, first, follow, a, p) && !IsEpsilonProduction(p)
        ==> !IsEpsilonProduction(parsingTable[a][t])
      ensures old(conflicts) <= conflicts
      ensures forall c :: c in conflicts[|old(conflicts)|..] ==> Genuine(grammar, first, follow, c)
      ensures conflicts[|old(conflicts)|..] == [] <==> IsLL1(grammar, first, follow)
      ensures conflicts[|old(conflicts)|..] == [] ==> forall a, p, t ::
        a in grammar.productions && p in grammar.productions[a] && t in Predict(grammar, first, follow, a, p) ==>
        parsingTable[a][t] == p
    {
      ResetRows();
      EmptyTableState(grammar, first, follow, parsingTable);
      ghost var base := |conflicts|;
      ghost var offered := FillRows(base);
      CompleteTable(grammar, first, follow, parsingTable, offered, conflicts[base..]);
    }
  }
}
