/**
 * The LL(1) stack parser as an object: the token list, the read position,
 * the symbol stack (its top is the LAST element) and the table it consults.
 * `Parse` runs the source's loop and is proved to compute exactly the run of
 * the stack machine, so every lemma about `StackMachine.Run` applies to it.
 */
module StackParser {
  import opened Wrappers
  import opened GrammarSpec
  import Tokens
  import opened StackMachine

  /** The terminal label of each token, in order, as the source computes it. */
  function Labels(ts: seq<Tokens.Token>): (r: seq<string>)
    ensures |r| == |ts|
    ensures forall i :: 0 <= i < |ts| ==> r[i] == Tokens.TokenToTerminal(ts[i])
  {
    if ts == [] then [] else [Tokens.TokenToTerminal(ts[0])] + Labels(ts[1..])
  }

  class LL1StackParser {
    const tokens: seq<Tokens.Token>
    var current: nat
    var stack: seq<string>
    const parsingTable: Table
    const nonTerminals: set<string>
    const terminals: set<string>

    /** The machine this parser runs: its tokens and their labels, its table and its nonterminals. */
    function AsMachine(): Machine {
      Machine(tokens, Labels(tokens), parsingTable, nonTerminals)
    }

    /** A parser over `tokens` with the given table, at the first token with an empty stack. */
    constructor (tokens: seq<Tokens.Token>, parsingTable: Table, nonTerminals: set<string>, terminals: set<string>)
      ensures this.tokens == tokens && this.parsingTable == parsingTable
      ensures this.nonTerminals == nonTerminals && this.terminals == terminals
      ensures current == 0 && stack == []
    {
      this.tokens := tokens;
      this.parsingTable := parsingTable;
      this.nonTerminals := nonTerminals;
      this.terminals := terminals;
      current := 0;
      stack := [];
    }

    /** The token at the read position; past the end, the EOF token with line -1. */
    method Peek() returns (t: Tokens.Token)
      ensures t == PeekAt(tokens, current)
      ensures current < |tokens| ==> t == tokens[current]
      ensures current >= |tokens| ==> t.tokenType.Eof? && t.line == -1 && Tokens.TokenToTerminal(t) == Eof
    {
      if current < |tokens| {
        return tokens[current];
      }
      return EofToken;
    }

    /** Moves the read position one token on, but never past the end of the tokens. */
    method Advance()
      modifies this`current
      ensures current == AdvanceFrom(tokens, old(current))
      ensures old(current) < |tokens| ==> current == old(current) + 1
      ensures old(current) >= |tokens| ==> current == old(current)
    {
      if current < |tokens| {
        current := current + 1;
      }
    }

    /** Pushes the symbols of `p` from last to first, so that `p[0]` ends on top. */
    method PushReversed(p: Production)
      modifies this`stack
      ensures stack == old(stack) + Reverse(p)
    {
      var i := |p|;
      while i > 0
        invariant 0 <= i <= |p|
        invariant stack == old(stack) + Reverse(p[i..])
      {
        i := i - 1;
        assert Reverse(p[i..]) == Reverse(p[i + 1..]) + [p[i]];
        stack := stack + [p[i]];
      }
      assert p[0..] == p;
    }

    /**
     * One iteration of the parse loop, with `lookahead` the token at the read
     * position: `None` when the loop goes on, the verdict when it stops. The
     * new stack and read position are those of one step of the stack machine.
     */
    method ParseStep(lookahead: Tokens.Token) returns (outcome: Option<Verdict>, next: Tokens.Token)
      requires stack != [] && lookahead == PeekAt(tokens, current)
      modifies this`stack, this`current
      ensures next == PeekAt(tokens, current)
      ensures Step(AsMachine(), Config(old(stack), old(current))) ==
        if outcome.Some? then Halt(outcome.value, Config(stack, current)) else Next(Config(stack, current))
    {
      next := lookahead;
      var top := stack[|stack| - 1];
      var lookaheadStr := Tokens.TokenToTerminal(lookahead);
      assert lookaheadStr == LabelAt(AsMachine(), current);
      if top == EndMarker {
        if lookaheadStr == Eof {
          return Some(Accepted), next;
        }
        return Some(Rejected(ExtraTokens)), next;
      }
      if IsTerminal(nonTerminals, top) {
        if top == lookaheadStr {
          stack := stack[..|stack| - 1];
          Advance();
          next := Peek();
          return None, next;
        }
        return Some(Rejected(Mismatch(top, lookaheadStr))), next;
      } else if top in nonTerminals {
        var production := GetProduction(parsingTable, top, lookaheadStr);
        if production.None? {
          return Some(Rejected(NoEntry(top, lookaheadStr, lookahead.line))), next;
        }
        var p := production.value;
        stack := stack[..|stack| - 1];
        if |p| == 0 {
          return Some(Rejected(EmptyProduction(top))), next;
        }
        if p[0] != Epsilon {
          PushReversed(p);
        }
        return None, next;
      }
      return Some(Rejected(InvalidSymbol(top))), next;
    }

    /**
     * Pushes "$" and the start symbol and runs the parse loop for at most
     * `fuel` iterations. The verdict and the final stack and read position are
     * those of the stack machine's run from that configuration, so the final
     * `StackEmptied` is unreachable (`StackMachine.RunNeverEmpties`).
     */
    method Parse(startSymbol: string, fuel: nat) returns (verdict: Verdict)
      modifies this`stack, this`current
      ensures (verdict, Config(stack, current)) == Run(AsMachine(), Config(old(stack) + [EndMarker, startSymbol], old(current)), fuel)
    {
      stack := stack + [EndMarker, startSymbol];
      ghost var init := Config(stack, current);
      var lookahead := Peek();
      var left: nat := fuel;
      while stack != []
        invariant left <= fuel
        invariant lookahead == PeekAt(tokens, current)
        invariant Run(AsMachine(), Config(stack, current), left) == Run(AsMachine(), init, fuel)
        decreases left
      {
        if left == 0 {
          return OutOfFuel;
        }
        var outcome;
        outcome, lookahead := ParseStep(lookahead);
        if outcome.Some? {
          return outcome.value;
        }
        left := left - 1;
      }
      return StackEmptied;
    }
  }

  /**
   * A table the analyzer built, over a grammar whose productions never use
   * "$", fits the parser: its cells hold productions of their own rows, and
   * the parser is given the grammar's nonterminals.
   */
  lemma AnalyzedTableParses(g: Grammar, first: SymbolSets, follow: SymbolSets, table: Table, tokens: seq<Tokens.Token>)
    requires Covers(g, first) && Covers(g, follow)
    requires CellsJustified(g, first, follow, table)
    requires forall a, p :: a in g.productions && p in g.productions[a] ==> EndMarker !in p
    ensures ParsesFor(Machine(tokens, Labels(tokens), table, g.productions.Keys), g)
  {
  }

  /**
   * As written, a `do` token is looked up under "DO": with a nonterminal on
   * top whose row has no "DO" cell, the parser stops with a missing table
   * entry, whatever cell the row holds for "do".
   */
  lemma DoLookaheadHasNoEntry(tokens: seq<Tokens.Token>, table: Table, nonTerminals: set<string>, c: Config)
    requires c.stack != [] && c.current < |tokens| && tokens[c.current].tokenType.Do?
    requires var top := c.stack[|c.stack| - 1];
      top != EndMarker && top in nonTerminals && (top in table ==> "DO" !in table[top])
    ensures var top := c.stack[|c.stack| - 1];
      Step(Machine(tokens, Labels(tokens), table, nonTerminals), c)
        == Halt(Rejected(NoEntry(top, "DO", tokens[c.current].line)), c)
  {
    var m := Machine(tokens, Labels(tokens), table, nonTerminals);
    var top := c.stack[|c.stack| - 1];
    Tokens.DoKeywordAsWritten();
    assert tokens[c.current].tokenType == Tokens.Do;
    assert Tokens.TokenToTerminal(tokens[c.current]) == "DO";
    assert LabelAt(m, c.current) == "DO";
    assert !IsTerminal(nonTerminals, top);
    assert GetProduction(table, top, "DO").None?;
  }

  /**
   * As written, the input `do` against the table M[S]["do"] = do is rejected
   * at once: the parse of S finds no cell M[S]["DO"].
   */
  lemma DoInputRejectedAsWritten()
    ensures var tokens := [Tokens.Token(Tokens.Do, "do", 1)];
      Run(Machine(tokens, Labels(tokens), map["S" := map["do" := ["do"]]], {"S"}), Config([EndMarker, "S"], 0), 3).0
        == Rejected(NoEntry("S", "DO", 1))
  {
    var tokens := [Tokens.Token(Tokens.Do, "do", 1)];
    DoLookaheadHasNoEntry(tokens, map["S" := map["do" := ["do"]]], {"S"}, Config([EndMarker, "S"], 0));
  }

  /** With the `do` case supplied, the same input against the same table is accepted. */
  lemma DoInputAcceptedCorrected()
    ensures var tokens := [Tokens.Token(Tokens.Do, "do", 1)];
      Run(Machine(tokens, [Tokens.Terminal(Tokens.Do)], map["S" := map["do" := ["do"]]], {"S"}), Config([EndMarker, "S"], 0), 3).0
        == Accepted
  {
    var m := Machine([Tokens.Token(Tokens.Do, "do", 1)], [Tokens.Terminal(Tokens.Do)], map["S" := map["do" := ["do"]]], {"S"});
    assert LabelAt(m, 0) == "do";
    assert Step(m, Config([EndMarker, "S"], 0)) == Next(Config([EndMarker, "do"], 0));
    assert Step(m, Config([EndMarker, "do"], 0)) == Next(Config([EndMarker], 1));
  }
}
