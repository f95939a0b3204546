/**
 * The table-driven LL(1) stack machine as a step function over configurations:
 * a stack of grammar symbols (its top is the LAST element of the sequence)
 * and the index of the next unread token. The parser class is proved to run
 * exactly this machine; the lemmas here say what its runs guarantee.
 */
module StackMachine {
  import opened Wrappers
  import opened GrammarSpec
  import Tokens

  /** The bottom-of-stack marker pushed below the start symbol. */
  const EndMarker: string := "$"

  /** The token peek returns once the input is used up. */
  const EofToken: Tokens.Token := Tokens.Token(Tokens.TokenType.Eof, "<EOF>", -1)

  datatype ParseError =
    | ExtraTokens                                           // "$" on top but input left
    | Mismatch(expected: string, found: string)             // terminal on top differs from the lookahead
    | NoEntry(nonTerminal: string, lookahead: string, line: int)  // M[A][a] is empty
    | InvalidSymbol(symbol: string)                         // neither terminal nor nonterminal
    | EmptyProduction(nonTerminal: string)                  // a cell holds a production with no symbols

  /**
   * How a run ends: acceptance, a parse error, the stack running empty (the
   * source's `return false`), or the step budget running out.
   */
  datatype Verdict = Accepted | Rejected(error: ParseError) | StackEmptied | OutOfFuel

  datatype Config = Config(stack: seq<string>, current: nat)

  /**
   * What the machine reads: the token list, the terminal label of each token
   * (for the parser class, what the source's `tokenToTerminal` returns for
   * it), the table and the nonterminals.
   */
  datatype Machine = Machine(tokens: seq<Tokens.Token>, labels: seq<string>, table: Table, nonTerminals: set<string>)

  datatype Move = Next(config: Config) | Halt(verdict: Verdict, final: Config)

  /** The token at the read position, or the EOF token past the end. */
  function PeekAt(tokens: seq<Tokens.Token>, current: nat): Tokens.Token {
    if current < |tokens| then tokens[current] else EofToken
  }

  /** The read position after consuming one token; it never moves past the end. */
  function AdvanceFrom(tokens: seq<Tokens.Token>, current: nat): nat {
    if current < |tokens| then current + 1 else current
  }

  /** The terminal label of the lookahead: the token's label, or "EOF" past the end. */
  function LabelAt(m: Machine, current: nat): string {
    if current < |m.labels| then m.labels[current] else Eof
  }

  predicate IsTerminal(nonTerminals: set<string>, symbol: string) {
    symbol == EndMarker || symbol !in nonTerminals
  }

  /** The sequence read backwards: index i of the result is index |s| - 1 - i of `s`. */
  function Reverse(s: seq<string>): (r: seq<string>)
    ensures |r| == |s|
    ensures forall i :: 0 <= i < |s| ==> r[i] == s[|s| - 1 - i]
  {
    if s == [] then [] else Reverse(s[1..]) + [s[0]]
  }

  lemma ReverseInvolution(s: seq<string>)
    ensures Reverse(Reverse(s)) == s
  {
  }

  lemma ReverseAppend(a: seq<string>, b: seq<string>)
    ensures Reverse(a + b) == Reverse(b) + Reverse(a)
  {
  }

  /**
   * One iteration of the parse loop, checks in the source's order: "$" on top
   * accepts on EOF and rejects otherwise; a terminal on top must equal the
   * lookahead and is popped, consuming a token; a nonterminal A on top is
   * replaced by M[A][lookahead] pushed in reverse, nothing being pushed for
   * a production starting with ε. A production with no symbols fails after
   * the pop, where the source reads its first symbol.
   */
  function Step(m: Machine, c: Config): Move
    requires c.stack != []
  {
    var top := c.stack[|c.stack| - 1];
    var popped := c.stack[..|c.stack| - 1];
    var terminal := LabelAt(m, c.current);
    if top == EndMarker then
      if terminal == Eof then Halt(Accepted, c) else Halt(Rejected(ExtraTokens), c)
    else if IsTerminal(m.nonTerminals, top) then
      if top == terminal then Next(Config(popped, AdvanceFrom(m.tokens, c.current)))
      else Halt(Rejected(Mismatch(top, terminal)), c)
    else if top in m.nonTerminals then
      match GetProduction(m.table, top, terminal)
      case None => Halt(Rejected(NoEntry(top, terminal, PeekAt(m.tokens, c.current).line)), c)
      case Some(p) =>
        if p == [] then Halt(Rejected(EmptyProduction(top)), Config(popped, c.current))
        else if p[0] == Epsilon then Next(Config(popped, c.current))
        else Next(Config(popped + Reverse(p), c.current))
    else Halt(Rejected(InvalidSymbol(top)), c)
  }

  /** At most `fuel` iterations of the parse loop, which stops when the stack is empty. */
  function Run(m: Machine, c: Config, fuel: nat): (Verdict, Config)
    decreases fuel
  {
    if c.stack == [] then (StackEmptied, c)
    else if fuel == 0 then (OutOfFuel, c)
    else match Step(m, c)
      case Halt(v, f) => (v, f)
      case Next(n) => Run(m, n, fuel - 1)
  }

  /** The terminal consumed by one step: the popped top when it matched the lookahead. */
  function StepMatched(m: Machine, c: Config): seq<string>
    requires c.stack != []
  {
    var top := c.stack[|c.stack| - 1];
    if top != EndMarker && IsTerminal(m.nonTerminals, top) && top == LabelAt(m, c.current)
    then [top] else []
  }

  /** The terminals consumed by a run, in order. */
  function Matched(m: Machine, c: Config, fuel: nat): seq<string>
    decreases fuel
  {
    if c.stack == [] || fuel == 0 then []
    else match Step(m, c)
      case Halt(_, _) => []
      case Next(n) => StepMatched(m, c) + Matched(m, n, fuel - 1)
  }

  /** The production one step expands by: M[A][lookahead] when a nonterminal A is on top. */
  function StepExpanded(m: Machine, c: Config): seq<Production>
    requires c.stack != []
  {
    var top := c.stack[|c.stack| - 1];
    if top != EndMarker && !IsTerminal(m.nonTerminals, top) then
      match GetProduction(m.table, top, LabelAt(m, c.current))
      case Some(p) => [p]
      case None => []
    else []
  }

  /** The productions a run expands by, in order: the trace the source prints as "Produção". */
  function Expansions(m: Machine, c: Config, fuel: nat): seq<Production>
    decreases fuel
  {
    if c.stack == [] || fuel == 0 then []
    else match Step(m, c)
      case Halt(_, _) => []
      case Next(n) => StepExpanded(m, c) + Expansions(m, n, fuel - 1)
  }

  /** The "Invalid symbol" error cannot occur: a symbol that is not a nonterminal counts as a terminal. */
  lemma NoInvalidSymbol(m: Machine, c: Config)
    requires c.stack != []
    ensures !(Step(m, c).Halt? && Step(m, c).verdict.Rejected? && Step(m, c).verdict.error.InvalidSymbol?)
  {
  }

  /**
   * Expanding A by M[A][a] = α: A is replaced by α read from the top down, so
   * the new top is α's first symbol; an ε-production only pops A.
   */
  lemma ExpandPushesInOrder(m: Machine, c: Config, p: Production)
    requires c.stack != [] && c.stack[|c.stack| - 1] != EndMarker && c.stack[|c.stack| - 1] in m.nonTerminals
    requires GetProduction(m.table, c.stack[|c.stack| - 1], LabelAt(m, c.current)) == Some(p)
    requires p != []
    ensures Step(m, c).Next?
    ensures var s := Step(m, c).config.stack;
      && s[..|c.stack| - 1] == c.stack[..|c.stack| - 1]
      && (p[0] == Epsilon ==> |s| == |c.stack| - 1)
      && (p[0] != Epsilon ==> Reverse(s[|c.stack| - 1..]) == p && s[|s| - 1] == p[0])
  {
    if p[0] != Epsilon {
      var s := Step(m, c).config.stack;
      assert s[|c.stack| - 1..] == Reverse(p);
      ReverseInvolution(p);
    }
  }

  /** A step that does not halt leaves every "$" on the stack: "$" itself is never popped. */
  lemma StepKeepsEndMarker(m: Machine, c: Config)
    requires c.stack != [] && EndMarker in c.stack && Step(m, c).Next?
    ensures EndMarker in Step(m, c).config.stack
  {
    var i :| 0 <= i < |c.stack| && c.stack[i] == EndMarker;
    assert i < |c.stack| - 1;
    assert Step(m, c).config.stack[i] == EndMarker;
  }

  /**
   * Once "$" is on the stack the stack never runs empty, so the source's
   * final `return false` is unreachable from `parse`.
   */
  lemma {:induction false} RunNeverEmpties(m: Machine, c: Config, fuel: nat)
    requires EndMarker in c.stack
    ensures Run(m, c, fuel).0 != StackEmptied
    decreases fuel
  {
    if fuel > 0 && Step(m, c).Next? {
      StepKeepsEndMarker(m, c);
      RunNeverEmpties(m, Step(m, c).config, fuel - 1);
    }
  }

  /** The read position only moves forward and never past the end of the tokens. */
  lemma {:induction false} RunCurrentBounded(m: Machine, c: Config, fuel: nat)
    requires c.current <= |m.tokens|
    ensures c.current <= Run(m, c, fuel).1.current <= |m.tokens|
    decreases fuel
  {
    if c.stack != [] && fuel > 0 {
      StepMovesForward(m, c);
      if Step(m, c).Next? {
        RunCurrentBounded(m, Step(m, c).config, fuel - 1);
      }
    }
  }

  /** Whether it halts or goes on, a step leaves the read position where it was or one token on. */
  lemma StepMovesForward(m: Machine, c: Config)
    requires c.stack != []
    ensures var n := if Step(m, c).Next? then Step(m, c).config else Step(m, c).final;
      n.current == c.current || n.current == AdvanceFrom(m.tokens, c.current)
  {
  }

  /** A run is accepted only with "$" on top and a lookahead whose terminal label is "EOF". */
  lemma {:induction false} AcceptedAtEof(m: Machine, c: Config, fuel: nat)
    requires Run(m, c, fuel).0 == Accepted
    ensures var f := Run(m, c, fuel).1;
      && f.stack != [] && f.stack[|f.stack| - 1] == EndMarker
      && LabelAt(m, f.current) == Eof
    decreases fuel
  {
    if Step(m, c).Next? {
      AcceptedAtEof(m, Step(m, c).config, fuel - 1);
    }
  }

  /**
   * `w` is what was consumed while the read position went from `from` to
   * `to`: the labels of the tokens in between, then only "EOF" labels, one
   * per match made once past the end.
   */
  ghost predicate ConsumedIs(labels: seq<string>, from: nat, to: nat, w: seq<string>) {
    && from <= to <= |labels|
    && to - from <= |w|
    && w[..to - from] == labels[from..to]
    && forall i :: to - from <= i < |w| ==> w[i] == Eof
  }

  /** Matching the lookahead label at `from` extends what was consumed from the next position. */
  lemma ConsumedAfterMatch(m: Machine, from: nat, to: nat, w: seq<string>)
    requires |m.labels| == |m.tokens| && from <= |m.tokens|
    requires ConsumedIs(m.labels, AdvanceFrom(m.tokens, from), to, w)
    ensures ConsumedIs(m.labels, from, to, [LabelAt(m, from)] + w)
  {
    if from < |m.tokens| {
      assert m.labels[from..to] == [m.labels[from]] + m.labels[from + 1..to];
      assert ([LabelAt(m, from)] + w)[..to - from] == [LabelAt(m, from)] + w[..to - from - 1];
    }
  }

  /** A step that goes on either consumes the lookahead's label and advances, or consumes nothing and stays. */
  lemma StepConsumes(m: Machine, c: Config)
    requires c.stack != [] && Step(m, c).Next?
    ensures StepMatched(m, c) == [] ==> Step(m, c).config.current == c.current
    ensures StepMatched(m, c) != [] ==>
      && StepMatched(m, c) == [LabelAt(m, c.current)]
      && Step(m, c).config.current == AdvanceFrom(m.tokens, c.current)
  {
  }

  /**
   * The terminals a run consumes are the labels of the tokens it moved past,
   * followed by as many "EOF" labels as it matched once past the end.
   */
  lemma {:induction false} MatchedIsInput(m: Machine, c: Config, fuel: nat)
    requires |m.labels| == |m.tokens| && c.current <= |m.tokens|
    ensures ConsumedIs(m.labels, c.current, Run(m, c, fuel).1.current, Matched(m, c, fuel))
    decreases fuel
  {
    if c.stack != [] && fuel > 0 && Step(m, c).Next? {
      var n := Step(m, c).config;
      var to := Run(m, n, fuel - 1).1.current;
      var rest := Matched(m, n, fuel - 1);
      StepConsumes(m, c);
      assert n.current <= |m.tokens|;
      MatchedIsInput(m, n, fuel - 1);
      assert Run(m, c, fuel).1.current == to;
      assert Matched(m, c, fuel) == StepMatched(m, c) + rest;
      if StepMatched(m, c) != [] {
        ConsumedAfterMatch(m, c.current, to, rest);
      } else {
        assert StepMatched(m, c) + rest == rest;
      }
    } else {
      assert Matched(m, c, fuel) == [];
      assert Run(m, c, fuel).1.current == c.current;
    }
  }

  /** The cell productions placed in a table built from `g`, and a grammar that never mentions "$". */
  ghost predicate ParsesFor(m: Machine, g: Grammar) {
    && m.nonTerminals == g.productions.Keys
    && (forall a, t :: a in m.table && t in m.table[a] ==> a in g.productions && m.table[a][t] in g.productions[a])
    && (forall a, p :: a in g.productions && p in g.productions[a] ==> EndMarker !in p)
  }

  /**
   * The symbols a production contributes to a derivation, as the parser
   * pushes them: none for a production whose first symbol is ε, even when
   * more symbols follow it.
   */
  function Body(p: Production): seq<string> {
    if p == [] || p[0] == Epsilon then [] else p
  }

  /**
   * `choices` is a leftmost derivation of the terminal string `w` from the
   * sentential form `form`: terminals at the front are matched against `w`
   * in order, and a nonterminal at the front is replaced by the body of the
   * next production in `choices`, which must be one of its own. A body is
   * taken as the parser expands it (see `Body`): a production that starts
   * with ε contributes nothing, even if more symbols follow the ε, where the
   * usual reading of a grammar would keep them.
   */
  predicate DerivesBy(g: Grammar, form: seq<string>, w: seq<string>, choices: seq<Production>)
    decreases |choices|, |form|
  {
    if form == [] then w == [] && choices == []
    else if form[0] !in g.productions then w != [] && w[0] == form[0] && DerivesBy(g, form[1..], w[1..], choices)
    else choices != [] && choices[0] in g.productions[form[0]] && DerivesBy(g, Body(choices[0]) + form[1..], w, choices[1..])
  }

  /**
   * A run that goes on from `c` is the step followed by the run from the next
   * configuration: same ending, and the step's terminal and expansion first.
   */
  lemma RunNext(m: Machine, c: Config, fuel: nat)
    requires c.stack != [] && fuel > 0 && Step(m, c).Next?
    ensures var n := Step(m, c).config;
      && Run(m, c, fuel) == Run(m, n, fuel - 1)
      && Matched(m, c, fuel) == StepMatched(m, c) + Matched(m, n, fuel - 1)
      && Expansions(m, c, fuel) == StepExpanded(m, c) + Expansions(m, n, fuel - 1)
  {
  }

  /** An accepted run from a stack whose top is not "$" goes on for at least one more step. */
  lemma AcceptedGoesOn(m: Machine, c: Config, fuel: nat)
    requires c.stack != [] && c.stack[|c.stack| - 1] != EndMarker
    requires Run(m, c, fuel).0 == Accepted
    ensures fuel > 0 && Step(m, c).Next?
  {
    OnlyEndMarkerAccepts(m, c);
  }

  /** A terminal at the front of a form derives itself followed by whatever the rest derives. */
  lemma DerivesTerminalFront(g: Grammar, top: string, rest: seq<string>, w: seq<string>, choices: seq<Production>)
    requires top !in g.productions && DerivesBy(g, rest, w, choices)
    ensures DerivesBy(g, [top] + rest, [top] + w, choices)
  {
    assert ([top] + rest)[1..] == rest;
    assert ([top] + w)[1..] == w;
  }

  /** A nonterminal at the front derives what the body of one of its productions derives, that production first. */
  lemma DerivesExpandFront(g: Grammar, top: string, p: Production, rest: seq<string>, w: seq<string>, choices: seq<Production>)
    requires top in g.productions && p in g.productions[top] && DerivesBy(g, Body(p) + rest, w, choices)
    ensures DerivesBy(g, [top] + rest, w, [p] + choices)
  {
    assert ([top] + rest)[1..] == rest;
  }

  /** A step that pops a terminal from `below + ["$"] + rest + [top]` consumes exactly `top`. */
  lemma StepOnTerminal(m: Machine, c: Config, below: seq<string>, rest: seq<string>, top: string)
    requires c.stack == below + [EndMarker] + rest + [top] && top != EndMarker && top !in m.nonTerminals
    requires Step(m, c).Next?
    ensures Step(m, c).config.stack == below + [EndMarker] + rest
    ensures StepMatched(m, c) == [top] && StepExpanded(m, c) == []
  {
    assert c.stack[|c.stack| - 1] == top;
    assert c.stack[..|c.stack| - 1] == below + [EndMarker] + rest;
  }

  /**
   * A step that expands the nonterminal `top` on `below + ["$"] + rest + [top]`
   * replaces it by the body of a production from the table, read backwards,
   * and consumes nothing.
   */
  lemma StepOnNonTerminal(m: Machine, c: Config, below: seq<string>, rest: seq<string>, top: string)
    returns (p: Production)
    requires c.stack == below + [EndMarker] + rest + [top] && top != EndMarker && top in m.nonTerminals
    requires Step(m, c).Next?
    ensures GetProduction(m.table, top, LabelAt(m, c.current)) == Some(p)
    ensures Step(m, c).config.stack == below + [EndMarker] + (rest + Reverse(Body(p)))
    ensures StepMatched(m, c) == [] && StepExpanded(m, c) == [p]
  {
    assert c.stack[|c.stack| - 1] == top;
    assert c.stack[..|c.stack| - 1] == below + [EndMarker] + rest;
    p := GetProduction(m.table, top, LabelAt(m, c.current)).value;
    if p[0] == Epsilon {
      assert Reverse(Body(p)) == [];
    }
  }

  /** Only "$" on top accepts; any other top either halts with an error or steps on. */
  lemma OnlyEndMarkerAccepts(m: Machine, c: Config)
    requires c.stack != [] && c.stack[|c.stack| - 1] != EndMarker
    ensures Step(m, c).Halt? ==> Step(m, c).verdict != Accepted
  {
  }

  /** The same expansion step, seen from the derivation: the form above "$" gets the body in front. */
  lemma ExpandForm(g: Grammar, p: Production, rest: seq<string>)
    requires EndMarker !in p && EndMarker !in rest
    ensures Reverse(rest + Reverse(Body(p))) == Body(p) + Reverse(rest)
    ensures EndMarker !in rest + Reverse(Body(p))
  {
    ReverseAppend(rest, Reverse(Body(p)));
    ReverseInvolution(Body(p));
  }

  /**
   * Soundness of the stack machine: when a run whose stack holds
   * `below + ["$"] + above` is accepted, the productions it expanded by form
   * a leftmost derivation, from the symbols above "$" read from the top
   * down, of exactly the terminals it consumed.
   */
  lemma {:induction false} RunSound(m: Machine, g: Grammar, c: Config, fuel: nat, below: seq<string>, above: seq<string>)
    requires ParsesFor(m, g)
    requires c.stack == below + [EndMarker] + above && EndMarker !in above
    requires Run(m, c, fuel).0 == Accepted
    ensures DerivesBy(g, Reverse(above), Matched(m, c, fuel), Expansions(m, c, fuel))
    decreases fuel, 1
  {
    if above == [] {
      assert Matched(m, c, fuel) == [] && Expansions(m, c, fuel) == [];
      return;
    }
    var top := above[|above| - 1];
    var rest := above[..|above| - 1];
    assert above == rest + [top];
    ReverseAppend(rest, [top]);
    assert Reverse([top]) == [top];
    assert Reverse(above) == [top] + Reverse(rest);
    if top !in g.productions {
      RunSoundMatch(m, g, c, fuel, below, rest, top);
    } else {
      RunSoundExpand(m, g, c, fuel, below, rest, top);
    }
  }

  /** The soundness step when the run starts by matching the terminal `top`. */
  lemma {:induction false} RunSoundMatch(m: Machine, g: Grammar, c: Config, fuel: nat,
                                         below: seq<string>, rest: seq<string>, top: string)
    requires ParsesFor(m, g) && top !in g.productions && top != EndMarker
    requires c.stack == below + [EndMarker] + rest + [top] && EndMarker !in rest
    requires Run(m, c, fuel).0 == Accepted
    ensures DerivesBy(g, [top] + Reverse(rest), Matched(m, c, fuel), Expansions(m, c, fuel))
    decreases fuel, 0
  {
    AcceptedGoesOn(m, c, fuel);
    StepOnTerminal(m, c, below, rest, top);
    RunNext(m, c, fuel);
    var n := Step(m, c).config;
    var w, ps := Matched(m, n, fuel - 1), Expansions(m, n, fuel - 1);
    RunSound(m, g, n, fuel - 1, below, rest);
    DerivesTerminalFront(g, top, Reverse(rest), w, ps);
    assert Matched(m, c, fuel) == [top] + w;
    assert Expansions(m, c, fuel) == [] + ps == ps;
  }

  /** The soundness step when the run starts by expanding the nonterminal `top`. */
  lemma {:induction false} RunSoundExpand(m: Machine, g: Grammar, c: Config, fuel: nat,
                                          below: seq<string>, rest: seq<string>, top: string)
    requires ParsesFor(m, g) && top in g.productions && top != EndMarker
    requires c.stack == below + [EndMarker] + rest + [top] && EndMarker !in rest
    requires Run(m, c, fuel).0 == Accepted
    ensures DerivesBy(g, [top] + Reverse(rest), Matched(m, c, fuel), Expansions(m, c, fuel))
    decreases fuel, 0
  {
    AcceptedGoesOn(m, c, fuel);
    var p := StepOnNonTerminal(m, c, below, rest, top);
    RunNext(m, c, fuel);
    var n := Step(m, c).config;
    assert p in g.productions[top];
    ExpandForm(g, p, rest);
    var w, ps := Matched(m, n, fuel - 1), Expansions(m, n, fuel - 1);
    RunSound(m, g, n, fuel - 1, below, rest + Reverse(Body(p)));
    DerivesExpandFront(g, top, p, Reverse(rest), w, ps);
    assert Matched(m, c, fuel) == [] + w == w;
    assert Expansions(m, c, fuel) == [p] + ps;
  }

  /**
   * What an accepted parse of `start` guarantees: the expansions form a
   * leftmost derivation of the consumed terminals from `start`, those
   * terminals are the labels of the tokens read (then "EOF" labels), and the
   * lookahead at the end is labelled "EOF".
   */
  lemma AcceptedRunDerives(m: Machine, g: Grammar, below: seq<string>, start: string, current: nat, fuel: nat)
    requires ParsesFor(m, g) && start != EndMarker
    requires |m.labels| == |m.tokens| && current <= |m.tokens|
    requires Run(m, Config(below + [EndMarker, start], current), fuel).0 == Accepted
    ensures var c := Config(below + [EndMarker, start], current);
      && DerivesBy(g, [start], Matched(m, c, fuel), Expansions(m, c, fuel))
      && ConsumedIs(m.labels, current, Run(m, c, fuel).1.current, Matched(m, c, fuel))
      && LabelAt(m, Run(m, c, fuel).1.current) == Eof
  {
    var c := Config(below + [EndMarker, start], current);
    assert c.stack == below + [EndMarker] + [start];
    assert Reverse([start]) == [start];
    RunSound(m, g, c, fuel, below, [start]);
    MatchedIsInput(m, c, fuel);
    AcceptedAtEof(m, c, fuel);
  }
}
