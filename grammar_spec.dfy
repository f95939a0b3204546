/**
 * The grammar the LL(1) engine works on, and the specification functions that
 * the imperative analyser is proved against: FIRST of a symbol sequence, the
 * FIRST and FOLLOW equations, and the lookahead set a production is entered on.
 *
 * Symbols are bare strings, as in the source: "ε" marks the empty production
 * and "EOF" is the end-of-input label.
 */
module GrammarSpec {
  import opened Wrappers

  const Epsilon: string := "ε"
  const Eof: string := "EOF"

  type Production = seq<string>

  /** FIRST or FOLLOW sets, one per nonterminal. */
  type SymbolSets = map<string, set<string>>

  /** M[A][t]: one row per nonterminal, one cell per lookahead terminal. */
  type Table = map<string, map<string, Production>>

  /** The production in cell M[A][t]: none when the row or the cell is missing. */
  function GetProduction(table: Table, nonTerminal: string, terminal: string): (r: Option<Production>)
    ensures r.Some? <==> nonTerminal in table && terminal in table[nonTerminal]
    ensures r.Some? ==> r.value == table[nonTerminal][terminal]
  {
    if nonTerminal !in table then None
    else if terminal in table[nonTerminal] then Some(table[nonTerminal][terminal])
    else None
  }

  /**
   * A grammar: every nonterminal with its ordered list of alternatives, the
   * declared terminals and the start symbol. The nonterminals are exactly the
   * keys of the production map.
   */
  datatype Grammar = Grammar(productions: map<string, seq<Production>>, terminals: set<string>, start: string)
  {
    /** "ε" is reserved (neither a declared terminal nor a nonterminal) and no name is both. */
    predicate WellFormed() {
      Epsilon !in terminals && Epsilon !in productions && terminals !! productions.Keys
    }
  }

  predicate IsEpsilonProduction(p: Production) {
    |p| == 1 && p[0] == Epsilon
  }

  /** The sets have an entry for every nonterminal. */
  ghost predicate Covers(g: Grammar, m: SymbolSets) {
    g.productions.Keys <= m.Keys
  }

  /** Pointwise inclusion of two families of sets over the nonterminals. */
  ghost predicate Below(g: Grammar, m1: SymbolSets, m2: SymbolSets) {
    Covers(g, m1) && Covers(g, m2) && forall n :: n in g.productions ==> m1[n] <= m2[n]
  }

  /** What FIRST sets may hold: declared terminals and ε. */
  function FirstUniverse(g: Grammar): set<string> {
    g.terminals + {Epsilon}
  }

  /** What FOLLOW sets may hold: declared terminals and EOF, never ε. */
  function FollowUniverse(g: Grammar): set<string> {
    (g.terminals + {Eof}) - {Epsilon}
  }

  ghost predicate Within(g: Grammar, m: SymbolSets, universe: set<string>) {
    Covers(g, m) && forall n :: n in g.productions ==> m[n] <= universe
  }

  /** A symbol counts as deriving ε: the literal "ε", or a nonterminal whose FIRST holds ε. */
  predicate Nullable(g: Grammar, first: SymbolSets, s: string)
    requires Covers(g, first)
  {
    (s in g.productions && Epsilon in first[s]) || s == Epsilon
  }

  predicate AllNullable(g: Grammar, first: SymbolSets, alpha: seq<string>)
    requires Covers(g, first)
  {
    forall i :: 0 <= i < |alpha| ==> Nullable(g, first, alpha[i])
  }

  /**
   * The left-to-right scan of FIRST: a terminal contributes itself and stops the
   * scan; a nonterminal contributes its FIRST set without ε and lets the scan go
   * on only when it is nullable; any other symbol (such as "ε") is skipped.
   */
  function ScanFirst(g: Grammar, first: SymbolSets, alpha: seq<string>): set<string>
    requires Covers(g, first)
    decreases |alpha|
  {
    if alpha == [] then {}
    else if alpha[0] in g.terminals then {alpha[0]}
    else if alpha[0] in g.productions then
      (first[alpha[0]] - {Epsilon}) + (if Epsilon in first[alpha[0]] then ScanFirst(g, first, alpha[1..]) else {})
    else ScanFirst(g, first, alpha[1..])
  }

  /** FIRST of a symbol sequence under the current FIRST sets of the nonterminals. */
  function SeqFirst(g: Grammar, first: SymbolSets, alpha: seq<string>): set<string>
    requires Covers(g, first)
  {
    if alpha == [] then {Epsilon}
    else ScanFirst(g, first, alpha) + (if AllNullable(g, first, alpha) then {Epsilon} else {})
  }

  /** The symbols before position i were all passed over by the scan. */
  predicate ScannedPast(g: Grammar, first: SymbolSets, alpha: seq<string>, i: int)
    requires Covers(g, first)
    requires 0 <= i <= |alpha|
  {
    forall j :: 0 <= j < i ==> alpha[j] !in g.terminals && (alpha[j] in g.productions ==> Epsilon in first[alpha[j]])
  }

  /** Symbol s, once reached by the scan, puts x into the result. */
  predicate Contributes(g: Grammar, first: SymbolSets, s: string, x: string)
    requires Covers(g, first)
  {
    (s in g.terminals && x == s) || (s !in g.terminals && s in g.productions && x in first[s] && x != Epsilon)
  }

  /**
   * Exact description of the scan: x is scanned iff some position i is reached
   * (every earlier symbol was skipped or nullable) and contributes x there.
   */
  lemma {:induction false} ScanFirstExact(g: Grammar, first: SymbolSets, alpha: seq<string>, x: string)
    requires Covers(g, first)
    ensures x in ScanFirst(g, first, alpha) <==>
            exists i :: 0 <= i < |alpha| && ScannedPast(g, first, alpha, i) && Contributes(g, first, alpha[i], x)
    decreases |alpha|
  {
    if alpha != [] {
      var s, rest := alpha[0], alpha[1..];
      ScanFirstExact(g, first, rest, x);
      if x in ScanFirst(g, first, alpha) {
        if Contributes(g, first, s, x) {
          assert ScannedPast(g, first, alpha, 0);
        } else {
          assert x in ScanFirst(g, first, rest);
          var i :| 0 <= i < |rest| && ScannedPast(g, first, rest, i) && Contributes(g, first, rest[i], x);
          assert ScannedPast(g, first, alpha, i + 1) by {
            forall j | 0 <= j < i + 1
              ensures alpha[j] !in g.terminals && (alpha[j] in g.productions ==> Epsilon in first[alpha[j]])
            {
              if j > 0 { assert alpha[j] == rest[j - 1]; }
            }
          }
          assert alpha[i + 1] == rest[i];
        }
      } else {
        forall i | 0 <= i < |alpha| && ScannedPast(g, first, alpha, i)
          ensures !Contributes(g, first, alpha[i], x)
        {
          if i > 0 {
            assert ScannedPast(g, first, rest, i - 1) by {
              forall j | 0 <= j < i - 1
                ensures rest[j] !in g.terminals && (rest[j] in g.productions ==> Epsilon in first[rest[j]])
              {
                assert rest[j] == alpha[j + 1];
              }
            }
            assert alpha[i] == rest[i - 1];
          }
        }
      }
    }
  }

  /** The scan only ever yields declared terminals. */
  lemma {:induction false} ScanFirstTerminals(g: Grammar, first: SymbolSets, alpha: seq<string>)
    requires Within(g, first, FirstUniverse(g))
    ensures ScanFirst(g, first, alpha) <= g.terminals
    decreases |alpha|
  {
    if alpha != [] && alpha[0] !in g.terminals {
      ScanFirstTerminals(g, first, alpha[1..]);
    }
  }

  /** FIRST of any sequence stays inside the terminals plus ε. */
  lemma SeqFirstWithin(g: Grammar, first: SymbolSets, alpha: seq<string>)
    requires Within(g, first, FirstUniverse(g))
    ensures SeqFirst(g, first, alpha) <= FirstUniverse(g)
    ensures SeqFirst(g, first, alpha) - {Epsilon} <= g.terminals
  {
    ScanFirstTerminals(g, first, alpha);
  }

  /**
   * ε is in FIRST(α) exactly when every symbol of α is the literal "ε" or a
   * nonterminal whose FIRST holds ε (provided "ε" is not declared a terminal).
   */
  lemma SeqFirstEpsilonIff(g: Grammar, first: SymbolSets, alpha: seq<string>)
    requires Within(g, first, FirstUniverse(g))
    requires Epsilon !in g.terminals
    ensures Epsilon in SeqFirst(g, first, alpha) <==> AllNullable(g, first, alpha)
  {
    ScanFirstTerminals(g, first, alpha);
  }

  /**
   * A sequence headed by a terminal has that terminal as its only FIRST member,
   * whatever follows it: the scan stops there.
   */
  lemma SeqFirstTerminalHead(g: Grammar, first: SymbolSets, t: string, beta: seq<string>)
    requires Covers(g, first) && g.WellFormed()
    requires t in g.terminals
    ensures SeqFirst(g, first, [t] + beta) == {t}
  {
    var alpha := [t] + beta;
    assert alpha[0] == t;
    assert !Nullable(g, first, alpha[0]);
  }

  /** FIRST of a sequence grows with the FIRST sets it is computed from. */
  lemma {:induction false} ScanFirstMonotone(g: Grammar, f1: SymbolSets, f2: SymbolSets, alpha: seq<string>)
    requires Below(g, f1, f2)
    ensures ScanFirst(g, f1, alpha) <= ScanFirst(g, f2, alpha)
    decreases |alpha|
  {
    if alpha != [] && alpha[0] !in g.terminals {
      ScanFirstMonotone(g, f1, f2, alpha[1..]);
    }
  }

  lemma SeqFirstMonotone(g: Grammar, f1: SymbolSets, f2: SymbolSets, alpha: seq<string>)
    requires Below(g, f1, f2)
    ensures SeqFirst(g, f1, alpha) <= SeqFirst(g, f2, alpha)
  {
    ScanFirstMonotone(g, f1, f2, alpha);
    if AllNullable(g, f1, alpha) {
      assert AllNullable(g, f2, alpha);
    }
  }

  /**
   * The FIRST equations: for every production A → α, FIRST(α) ⊆ FIRST(A).
   * The analyser's result is the least family of sets satisfying them.
   */
  ghost predicate IsFirstSolution(g: Grammar, s: SymbolSets) {
    Covers(g, s) &&
    forall a, p :: a in g.productions && p in g.productions[a] ==> SeqFirst(g, s, p) <= s[a]
  }

  /** Every solution of the FIRST equations that contains `base` also contains `f`. */
  ghost predicate BelowFirstSolutions(g: Grammar, base: SymbolSets, f: SymbolSets) {
    forall s :: IsFirstSolution(g, s) && Below(g, base, s) ==> Below(g, f, s)
  }

  /** The two families agree on every nonterminal except `a`. */
  ghost predicate SameExcept(g: Grammar, m1: SymbolSets, m2: SymbolSets, a: string)
    requires Covers(g, m1) && Covers(g, m2)
  {
    forall n :: n in g.productions && n != a ==> m1[n] == m2[n]
  }

  /** Families over the same keys that agree everywhere, including at `a`, are equal. */
  lemma SameExceptEqual(g: Grammar, m1: SymbolSets, m2: SymbolSets, a: string)
    requires m1.Keys == g.productions.Keys && m2.Keys == g.productions.Keys
    requires SameExcept(g, m1, m2, a) && a in g.productions && m1[a] == m2[a]
    ensures m1 == m2
  {
  }

  /**
   * One FIRST update, FIRST(A) ∪= FIRST(α) for a production A → α: the sets
   * only grow, stay within the terminals plus ε, change only at A, and
   * FIRST(α) computed from the starting sets is absorbed.
   */
  lemma FirstUpdate(g: Grammar, base: SymbolSets, f: SymbolSets, a: string, p: Production)
    requires Within(g, f, FirstUniverse(g)) && Below(g, base, f)
    requires a in g.productions
    ensures var f' := f[a := f[a] + SeqFirst(g, f, p)];
      && Within(g, f', FirstUniverse(g)) && Below(g, base, f') && Below(g, f, f')
      && SameExcept(g, f, f', a)
      && SeqFirst(g, base, p) <= f'[a]
  {
    SeqFirstWithin(g, f, p);
    SeqFirstMonotone(g, base, f, p);
  }

  /** The same update never leaves the solutions of the FIRST equations below it. */
  lemma FirstUpdateStaysBelow(g: Grammar, base: SymbolSets, f: SymbolSets, a: string, p: Production)
    requires Covers(g, f) && a in g.productions && p in g.productions[a]
    requires BelowFirstSolutions(g, base, f)
    ensures BelowFirstSolutions(g, base, f[a := f[a] + SeqFirst(g, f, p)])
  {
    var f' := f[a := f[a] + SeqFirst(g, f, p)];
    forall s | IsFirstSolution(g, s) && Below(g, base, s)
      ensures Below(g, f', s)
    {
      SeqFirstMonotone(g, f, s, p);
    }
  }

  /**
   * The FOLLOW equation for the occurrence of a nonterminal B at position i of
   * A → α: FIRST(α[i+1..]) without ε is in FOLLOW(B), and so is FOLLOW(A) when
   * that suffix is empty or nullable.
   */
  ghost predicate FollowRuleHolds(g: Grammar, first: SymbolSets, s: SymbolSets, a: string, p: Production, i: int)
    requires Covers(g, first) && Covers(g, s)
  {
    a in g.productions && 0 <= i < |p| &&
    (p[i] in g.productions ==>
      var beta := SeqFirst(g, first, p[i + 1..]);
      beta - {Epsilon} <= s[p[i]] && (Epsilon in beta ==> s[a] <= s[p[i]]))
  }

  /** EOF follows the start symbol and every FOLLOW equation holds. */
  ghost predicate IsFollowSolution(g: Grammar, first: SymbolSets, s: SymbolSets)
    requires Covers(g, first)
  {
    Covers(g, s) &&
    (g.start in g.productions ==> Eof in s[g.start]) &&
    forall a, p, i :: a in g.productions && p in g.productions[a] && 0 <= i < |p| ==> FollowRuleHolds(g, first, s, a, p, i)
  }

  /** Every solution of the FOLLOW equations that contains `base` also contains `f`. */
  ghost predicate BelowFollowSolutions(g: Grammar, first: SymbolSets, base: SymbolSets, f: SymbolSets)
    requires Covers(g, first)
  {
    forall s :: IsFollowSolution(g, first, s) && Below(g, base, s) ==> Below(g, f, s)
  }

  /**
   * The FOLLOW update for position i of A → α, in the order the analyser
   * performs it: when α[i] is a nonterminal B followed by β, FOLLOW(B) ∪= FIRST(β),
   * ε is removed, and FOLLOW(A) is added when ε ∈ FIRST(β); when B ends the
   * production, FOLLOW(B) ∪= FOLLOW(A). Other symbols change nothing.
   */
  ghost function FollowStep(g: Grammar, first: SymbolSets, f: SymbolSets, a: string, p: Production, i: int): SymbolSets
    requires Covers(g, first) && Covers(g, f) && a in g.productions && 0 <= i < |p|
  {
    var b := p[i];
    if b !in g.productions then f
    else if i + 1 < |p| then
      var beta := SeqFirst(g, first, p[i + 1..]);
      var f1 := f[b := f[b] + beta];
      var f2 := f1[b := f1[b] - {Epsilon}];
      if Epsilon in beta then f2[b := f2[b] + f2[a]] else f2
    else
      f[b := f[b] + f[a]]
  }

  /**
   * One FOLLOW update only adds, keeps every set within the terminals plus
   * EOF, changes at most FOLLOW(α[i]), and leaves the equation for that
   * position satisfied.
   */
  lemma FollowStepProperties(g: Grammar, first: SymbolSets, f: SymbolSets, a: string, p: Production, i: int)
    requires Within(g, first, FirstUniverse(g)) && Within(g, f, FollowUniverse(g))
    requires a in g.productions && 0 <= i < |p|
    ensures var f' := FollowStep(g, first, f, a, p, i);
      && f'.Keys == f.Keys && Within(g, f', FollowUniverse(g))
      && Below(g, f, f') && SameExcept(g, f, f', p[i])
      && FollowRuleHolds(g, first, f', a, p, i)
  {
    if p[i] in g.productions && i + 1 < |p| {
      SeqFirstWithin(g, first, p[i + 1..]);
    }
  }

  /** The same update never leaves the solutions of the FOLLOW equations below it. */
  lemma FollowStepStaysBelow(g: Grammar, first: SymbolSets, base: SymbolSets, f: SymbolSets, a: string, p: Production, i: int)
    requires Covers(g, first) && Covers(g, f)
    requires a in g.productions && p in g.productions[a] && 0 <= i < |p|
    requires BelowFollowSolutions(g, first, base, f)
    ensures BelowFollowSolutions(g, first, base, FollowStep(g, first, f, a, p, i))
  {
    var f' := FollowStep(g, first, f, a, p, i);
    forall s | IsFollowSolution(g, first, s) && Below(g, base, s)
      ensures Below(g, f', s)
    {
      assert FollowRuleHolds(g, first, s, a, p, i);
      if p[i] in g.productions && i + 1 == |p| {
        assert p[i + 1..] == [];
      }
    }
  }

  /**
   * What a stretch of FOLLOW updates guarantees, from `f0` to `f`: keys kept,
   * sets within the terminals plus EOF and only growing, no growth reported
   * means no change at all, reported growth strictly shrinks the measure, and
   * the FOLLOW solutions above some base that were above `f0` are above `f`.
   */
  ghost predicate FollowAdvanced(g: Grammar, first: SymbolSets, f0: SymbolSets, f: SymbolSets, grew: bool)
    requires Covers(g, first)
  {
    && f0.Keys == g.productions.Keys && f.Keys == g.productions.Keys
    && Within(g, f, FollowUniverse(g)) && Below(g, f0, f)
    && (!grew ==> f == f0)
    && (grew ==> Missing(g, f, FollowUniverse(g)) < Missing(g, f0, FollowUniverse(g)))
    && (forall base :: BelowFollowSolutions(g, first, base, f0) ==> BelowFollowSolutions(g, first, base, f))
  }

  /** Nothing done is an advance that reports no growth. */
  lemma FollowAdvancedRefl(g: Grammar, first: SymbolSets, f: SymbolSets)
    requires Covers(g, first) && f.Keys == g.productions.Keys && Within(g, f, FollowUniverse(g))
    ensures FollowAdvanced(g, first, f, f, false)
  {
  }

  /** Two advances in a row are one advance, reporting growth if either did. */
  lemma FollowAdvancedTrans(g: Grammar, first: SymbolSets, f0: SymbolSets, f1: SymbolSets, f2: SymbolSets, grew1: bool, grew2: bool)
    requires Covers(g, first)
    requires FollowAdvanced(g, first, f0, f1, grew1) && FollowAdvanced(g, first, f1, f2, grew2)
    ensures FollowAdvanced(g, first, f0, f2, grew1 || grew2)
  {
    MissingAntitone(g, f1, f2, FollowUniverse(g));
    MissingAntitone(g, f0, f1, FollowUniverse(g));
  }

  /** A single FOLLOW update is an advance, reporting growth exactly when the updated set got larger. */
  lemma FollowStepAdvances(g: Grammar, first: SymbolSets, f: SymbolSets, a: string, p: Production, i: int)
    requires Within(g, first, FirstUniverse(g)) && first.Keys == g.productions.Keys
    requires f.Keys == g.productions.Keys && Within(g, f, FollowUniverse(g))
    requires a in g.productions && p in g.productions[a] && 0 <= i < |p|
    ensures var f' := FollowStep(g, first, f, a, p, i);
      && FollowAdvanced(g, first, f, f', p[i] in g.productions && |f'[p[i]]| > |f[p[i]]|)
      && FollowRuleHolds(g, first, f', a, p, i)
  {
    var f' := FollowStep(g, first, f, a, p, i);
    FollowStepProperties(g, first, f, a, p, i);
    SizeGrowth(g, f, f', FollowUniverse(g), p[i]);
    forall base | BelowFollowSolutions(g, first, base, f)
      ensures BelowFollowSolutions(g, first, base, f')
    {
      FollowStepStaysBelow(g, first, base, f, a, p, i);
    }
  }

  /** The lookaheads on which A → p is chosen: FIRST(p) without ε, plus FOLLOW(A) when p is nullable. */
  function Predict(g: Grammar, first: SymbolSets, follow: SymbolSets, a: string, p: Production): set<string>
    requires Covers(g, first) && Covers(g, follow) && a in g.productions
  {
    var f := SeqFirst(g, first, p);
    (f - {Epsilon}) + (if Epsilon in f then follow[a] else {})
  }

  /** Every filled cell M[A][t] holds one of A's own productions, and t is one of its lookaheads. */
  ghost predicate CellsJustified(g: Grammar, first: SymbolSets, follow: SymbolSets, table: Table)
    requires Covers(g, first) && Covers(g, follow)
  {
    forall a, t :: a in table && t in table[a] ==>
      a in g.productions && table[a][t] in g.productions[a] && t != Epsilon &&
      t in Predict(g, first, follow, a, table[a][t])
  }

  /** Every lookahead of every production has a filled cell in its nonterminal's row. */
  ghost predicate CellsComplete(g: Grammar, first: SymbolSets, follow: SymbolSets, table: Table)
    requires Covers(g, first) && Covers(g, follow)
  {
    forall a, p, t :: a in g.productions && p in g.productions[a] && t in Predict(g, first, follow, a, p) ==>
      a in table && t in table[a]
  }

  /** Pairs (nonterminal, member of the universe) not yet in the sets: the fixed-point loops' measure. */
  ghost function Missing(g: Grammar, m: SymbolSets, universe: set<string>): set<(string, string)>
    requires Covers(g, m)
  {
    set n, t | n in g.productions && t in universe && t !in m[n] :: (n, t)
  }

  /** A step that adds a new member of the universe and removes none strictly shrinks the measure. */
  lemma MissingShrinks(g: Grammar, m1: SymbolSets, m2: SymbolSets, universe: set<string>, n: string, t: string)
    requires Below(g, m1, m2)
    requires n in g.productions && t in universe && t in m2[n] && t !in m1[n]
    ensures Missing(g, m2, universe) < Missing(g, m1, universe)
  {
    assert (n, t) in Missing(g, m1, universe) - Missing(g, m2, universe);
  }

  /** Growing the sets can only shrink the measure. */
  lemma MissingAntitone(g: Grammar, m1: SymbolSets, m2: SymbolSets, universe: set<string>)
    requires Below(g, m1, m2)
    ensures Missing(g, m2, universe) <= Missing(g, m1, universe)
  {
  }

  /**
   * When only the set at `n` may have grown, its size tells whether anything
   * changed: a larger set strictly shrinks the measure, an equal one means the
   * families are equal.
   */
  lemma SizeGrowth(g: Grammar, m1: SymbolSets, m2: SymbolSets, universe: set<string>, n: string)
    requires m1.Keys == g.productions.Keys && m2.Keys == g.productions.Keys
    requires Below(g, m1, m2) && SameExcept(g, m1, m2, n) && Within(g, m2, universe)
    ensures n in g.productions && |m2[n]| > |m1[n]| ==> Missing(g, m2, universe) < Missing(g, m1, universe)
    ensures n !in g.productions || |m2[n]| <= |m1[n]| ==> m2 == m1
  {
    if n in g.productions {
      SubsetCardinality(m1[n], m2[n]);
      if |m2[n]| > |m1[n]| {
        var t :| t in m2[n] - m1[n];
        MissingShrinks(g, m1, m2, universe, n, t);
      }
    }
  }

  /** For sets that only grow, equal size means nothing was added. */
  lemma SubsetCardinality<T>(a: set<T>, b: set<T>)
    requires a <= b
    ensures |a| <= |b|
    ensures |a| == |b| ==> a == b
    ensures |a| < |b| ==> b - a != {}
  {
    assert b == a + (b - a);
    assert a * (b - a) == {};
    if a != b {
      var x :| x in b - a;
      assert |b - a| >= 1;
    }
  }
}
