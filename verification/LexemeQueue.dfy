/** skeleton.c, the lexeme queue: reading through it, rewinding it and resetting it, the generated
    parser does what the parser of Trials does with random access to the input. */
module LexemeQueue {
  import opened Grammar
  import opened LR0
  import opened Output
  import opened Machine
  import opened MachineStacks
  import opened Trials

  /** Where in the input the queue starts. */
  function Base(c: Config): int {
    c.read - |c.queue|
  }

  /** The place of the next token to be shifted: yychar, if it holds one, is not shifted yet. */
  function Pos(c: Config): int {
    c.read - (|c.queue| - c.lvp) - (if c.yychar >= 0 then 1 else 0)
  }

  function Floor(n: int): nat {
    if n < 0 then 0 else n
  }

  function TurnAt(base: int, s: Save): Turn {
    Turn(Spot(s.stack, Floor(base + s.lexeme)), s.ctry)
  }

  function TurnsAt(base: int, saves: seq<Save>): seq<Turn> {
    seq(|saves|, i requires 0 <= i < |saves| => TurnAt(base, saves[i]))
  }

  /** What a configuration stands for. */
  ghost function Meaning(c: Config): Plain {
    Plain(c.status, Spot(c.stack, Floor(Pos(c))), TurnsAt(Base(c), c.saves), TurnsAt(Base(c), c.path),
          if c.status.Accepted? then c.ret else Leaf(Lexeme(0, 0)))
  }

  predicate SameToken(t: Token, l: Lexeme) {
    t.val == l && Norm(t.code) == Norm(l.code)
  }

  /** The queue will be read again. */
  predicate Live(c: Config) {
    c.saves != [] || c.path != [] || c.lvp < |c.queue|
  }

  ghost predicate SavesFit(c: Config, saves: seq<Save>) {
    forall i :: 0 <= i < |saves| ==> saves[i].lexeme < |c.queue| && TopIs(saves[i].stack, saves[i].state)
  }

  /** The queue holds a stretch of the input, up to where it has been read, with every saved place
      inside it; yychar and yylval are the token at the present place. */
  ghost predicate QueueOK(c: Config, input: nat -> Lexeme) {
    && c.lvp <= |c.queue| && Pos(c) >= 0 && TopIs(c.stack, c.state) && c.status.Running?
    && (c.yychar >= 0 ==> c.yylval == input(Pos(c)) && c.yychar == Norm(input(Pos(c)).code))
    && (Live(c) ==> Base(c) >= 0 && (c.yychar >= 0 ==> c.lvp >= 1))
    && (Live(c) ==> forall k :: 0 <= k < |c.queue| ==> SameToken(c.queue[k], input(Base(c) + k)))
    && SavesFit(c, c.saves) && SavesFit(c, c.path) && (c.saves == [] || c.path == [])
  }

  /** The present place is not past the next choice of the path. */
  ghost predicate BeforePath(c: Config) {
    c.path != [] ==> Pos(c) <= Base(c) + c.path[0].lexeme
  }

  ghost predicate Means(c: Config, input: nat -> Lexeme, p: Plain) {
    Meaning(c) == p && (c.status.Running? ==> QueueOK(c, input))
  }

  /** Reading a token moves nothing: it is the one at the present place. */
  lemma ReadMeans(c: Config, input: nat -> Lexeme)
    requires QueueOK(c, input) && BeforePath(c)
    ensures var d := ReadToken(c, input);
            && Means(d, input, Meaning(c)) && d.status.Running? && d.yychar == Norm(input(Pos(c)).code)
            && d.saves == c.saves && d.path == c.path && d.stack == c.stack && d.state == c.state && BeforePath(d) &&
                Pos(d) == Pos(c)
  {
    if c.yychar < 0 && c.lvp < |c.queue| {
      assert SameToken(c.queue[c.lvp], input(Base(c) + c.lvp));
    }
  }

  lemma ValidMeans(c: Config, input: nat -> Lexeme)
    requires QueueOK(c, input) && c.saves != []
    ensures Means(Valid(c), input, PlainValid(Meaning(c)))
  {}

  lemma ShiftMeans(T: Tables, c: Config, input: nat -> Lexeme, q: int, valid: bool)
    requires Shaped(T) && QueueOK(c, input) && c.yychar >= 0
    ensures Means(Shift(c, q), input, PlainDo(T, input, Meaning(c), DoShift(q), valid))
  {}

  /** The look ahead after a reduction to the goal in state 0. */
  lemma GoalMeans(c: Config, input: nat -> Lexeme, tree: Tree)
    requires QueueOK(c, input) && BeforePath(c)
    ensures var p := Meaning(c);
            Means(LookAhead(input, c.(ret := tree)), input,
                            if Norm(input(Pos(c)).code) != 0 then p
                            else if p.saves != [] then PlainValid(p) else p.(ret := tree, status := Accepted))
  {
    var d := c.(ret := tree);
    assert Meaning(d) == Meaning(c);
    ReadMeans(d, input);
    var e := ReadToken(d, input);
    assert e.ret == tree;
    if e.yychar == 0 && e.saves != [] {
      ValidMeans(e, input);
    }
  }

  lemma StackMeans(c: Config, input: nat -> Lexeme, st: Stack)
    requires QueueOK(c, input) && BeforePath(c) && |st.ss| > 0
    ensures var d := c.(stack := st, state := st.ss[|st.ss| - 1]);
            Means(d, input, Meaning(c).(here := Spot(st, Floor(Pos(c))))) && BeforePath(d) && Pos(d) == Pos(c)
  {}

  lemma ReduceMeans(T: Tables, c: Config, input: nat -> Lexeme, y: int, valid: bool)
    requires Shaped(T) && QueueOK(c, input) && BeforePath(c)
    ensures Means(Reduce(T, input, c, y, valid), input, PlainDo(T, input, Meaning(c), DoReduce(y), valid))
  {
    var r := Reduction(T, c.stack, y);
    if valid && c.saves != [] {
      ValidMeans(c, input);
    } else if r.Reduced? {
      hide Tables.GotoTo, Tables.Hit, SavesFit;
      StackMeans(c, input, r.stack);
      if r.goal {
        GoalMeans(c.(stack := r.stack, state := r.stack.ss[|r.stack.ss| - 1]), input, r.tree);
      }
    }
  }

  /** Rewinding to before the token at hand, into a fresh queue when the old one is used up. */
  lemma RewoundMeans(c: Config, input: nat -> Lexeme)
    requires QueueOK(c, input) && c.yychar >= 0 && c.path == []
    ensures var d := Rewound(c);
            && d.status.Running? && d.yychar < 0 && d.lvp < |d.queue| && d.yylval == input(Pos(d)) && Pos(d) == Pos(c)
            && d.stack == c.stack && d.state == c.state && d.saves == c.saves && d.path == [] &&
                (c.saves != [] ==> Base(d) == Base(c))
            && Means(d, input, Meaning(c))
  {}

  lemma ChooseMeans(T: Tables, c: Config, input: nat -> Lexeme, e: int, ctry: int, valid: bool)
    requires Shaped(T) && QueueOK(c, input) && BeforePath(c) && c.yylval == input(Pos(c)) &&
        (c.yychar < 0 ==> c.lvp < |c.queue|)
    requires 0 <= ctry < |T.ctable| && T.ctable[ctry] >= 0
    ensures Means(Choose(T, input, c, e, ctry, valid), input,
        PlainDo(T, input, Meaning(c), Alternative(T, e, ctry), valid))
  {
    if e == ctry {
      ShiftHeld(T, c, input, T.ctable[ctry], valid);
    } else {
      ReduceMeans(T, c, input, T.ctable[ctry], valid);
    }
  }

  /** The shift of an alternative: the token may have to be taken off the queue again. */
  lemma ShiftHeld(T: Tables, c: Config, input: nat -> Lexeme, q: int, valid: bool)
    requires Shaped(T) && QueueOK(c, input) && c.yylval == input(Pos(c)) && (c.yychar < 0 ==> c.lvp < |c.queue|) &&
        q >= 0
    ensures Means(Shift(if c.yychar < 0 then c.(lvp := c.lvp + 1) else c, q), input,
        PlainDo(T, input, Meaning(c), DoShift(q), valid))
  {}

  /** A new save is the present spot. */
  lemma SaveMeans(c: Config, input: nat -> Lexeme, ctry: int)
    requires QueueOK(c, input) && c.yychar < 0 && c.lvp < |c.queue| && c.path == []
    ensures var d := c.(saves := c.saves + [Save(c.state, c.stack, c.lvp, ctry)]);
            Means(d, input, Meaning(c).(saves := Meaning(c).saves + [Turn(Meaning(c).here, ctry)])) && Pos(d) == Pos(c)
  {
    var d := c.(saves := c.saves + [Save(c.state, c.stack, c.lvp, ctry)]);
    assert Meaning(d).saves == Meaning(c).saves + [Turn(Meaning(c).here, ctry)];
  }

  lemma ReplayMeans(T: Tables, c: Config, input: nat -> Lexeme, e: int, valid: bool)
    requires Shaped(T) && QueueOK(c, input) && c.yychar >= 0 && c.path != []
    requires |c.path| > 1 ==> Pos(c) <= Base(c) + c.path[1].lexeme
    requires 0 <= c.path[0].ctry < |T.ctable| && T.ctable[c.path[0].ctry] >= 0 && c.path[0].state == c.state
    ensures Means(Conflict(T, input, c, e, valid), input, PlainFork(T, input, Meaning(c), e, valid))
  {
    var d := c.(path := c.path[1..]);
    assert Meaning(d) == Meaning(c).(path := Meaning(c).path[1..]);
    ChooseMeans(T, d, input, e, c.path[0].ctry, valid);
  }

  lemma TrialMeans(T: Tables, c: Config, input: nat -> Lexeme, e: int, valid: bool)
    requires Shaped(T) && QueueOK(c, input) && c.yychar >= 0 && c.path == []
    requires 0 <= e < |T.ctable| && e + 1 < |T.ctable| && (T.ctable[e] == -1 ==> T.ctable[e + 1] >= 0) &&
        T.ctable[e] >= -1
    ensures Means(Conflict(T, input, c, e, valid), input, PlainFork(T, input, Meaning(c), e, valid))
  {
    RewoundMeans(c, input);
    var d := Rewound(c);
    var ctry := if T.ctable[e] == -1 then e + 1 else e;
    SaveMeans(d, input, ctry);
    var f := d.(saves := d.saves + [Save(d.state, d.stack, d.lvp, ctry)]);
    ChooseMeans(T, f, input, e, ctry, valid);
  }

  lemma FailedMeans(c: Config, input: nat -> Lexeme)
    requires QueueOK(c, input) && c.saves == []
    ensures Meaning(c).saves == [] && Means(c.(status := Failed), input, Meaning(c).(status := Failed))
  {}

  /** The save resumed, with its alternative advanced. */
  function Advanced(c: Config): Save
    requires c.saves != []
  {
    var s := c.saves[|c.saves| - 1];
    s.(ctry := s.ctry + 1)
  }

  function Reopened(c: Config): Config
    requires c.saves != []
  {
    Restored(c, Advanced(c)).(saves := c.saves[..|c.saves| - 1] + [Advanced(c)])
  }

  function Abandoned(c: Config): Config
    requires c.saves != []
  {
    Restored(c, Advanced(c)).(saves := c.saves[..|c.saves| - 1])
  }

  lemma RestoredMeans(c: Config, input: nat -> Lexeme)
    requires QueueOK(c, input) && c.saves != []
    ensures Meaning(c).saves != [] && NextTry(Meaning(c)) == Advanced(c).ctry
    ensures Means(Reopened(c), input, Retried(Meaning(c))) && QueueOK(Reopened(c), input) && BeforePath(Reopened(c))
    ensures Means(Abandoned(c), input, GivenUp(Meaning(c))) && QueueOK(Abandoned(c), input) && BeforePath(Abandoned(c))
  {
    var n := |c.saves| - 1;
    var t := TurnAt(Base(c), Advanced(c));
    assert TurnsAt(Base(c), c.saves[..n] + [Advanced(c)]) == TurnsAt(Base(c), c.saves)[..n] + [t];
    assert TurnsAt(Base(c), c.saves[..n]) == TurnsAt(Base(c), c.saves)[..n];
  }

  /** Backtracking rewinds the queue to the place of the save. */
  lemma {:induction false} BacktrackMeans(T: Tables, c: Config, input: nat -> Lexeme, valid: bool)
    requires Shaped(T) && QueueOK(c, input)
    requires !PlainBacktrack(T, input, Meaning(c), valid).status.Crashed?
    ensures Means(Backtrack(T, input, c, valid), input, PlainBacktrack(T, input, Meaning(c), valid))
    decreases |c.saves|
  {
    hide Meaning, QueueOK, BeforePath, Reduce, PlainDo, SavesFit, Shaped;
    if c.saves == [] {
      FailedMeans(c, input);
    } else {
      RestoredMeans(c, input);
      if T.ctable[Advanced(c).ctry] >= 0 {
        ReduceMeans(T, Reopened(c), input, T.ctable[Advanced(c).ctry], valid);
      } else {
        BacktrackMeans(T, Abandoned(c), input, valid);
      }
    }
  }

  /** The bounds of the queue follow from where the parse stands on the path. */
  lemma OnPath(g: Packed, A: Automaton, T: Tables, c: Config, input: nat -> Lexeme)
    requires g.WellFormed() && Shaped(T) && QueueOK(c, input) && PlainOK(g, A, T, input, Meaning(c))
    ensures BeforePath(c)
    ensures |c.path| > 1 ==> Base(c) + c.path[0].lexeme <= Base(c) + c.path[1].lexeme
  {
    if c.path != [] {
      PathBounds(g, A, T, input, Meaning(c));
    }
  }

  /** A step of the parser with a queue is a step of the parser without one. */
  lemma StepMeans(g: Packed, A: Automaton, T: Tables, c: Config, input: nat -> Lexeme, valid: bool)
    requires TablesSound(g, A, T) && QueueOK(c, input) && RunOK(g, A, T, input, Meaning(c))
    ensures Means(Step(T, input, c, valid), input, PlainStep(T, input, Meaning(c), valid))
  {
    var p := Meaning(c);
    OnPath(g, A, T, c, input);
    StepOK(g, A, T, input, p, valid);
    DecideSound(g, A, T, input, p.here);
    if T.defred[c.state] != 0 {
      ReduceMeans(T, c, input, T.defred[c.state], valid);
    } else {
      ReadMeans(c, input);
      var d := ReadToken(c, input);
      if Peek(T, T.cindex, c.state, d.yychar).Some? {
        ForkMeans(g, A, T, d, input, valid);
      } else if Peek(T, T.sindex, c.state, d.yychar).Some? {
        ShiftMeans(T, d, input, Peek(T, T.sindex, c.state, d.yychar).value, valid);
      } else if Peek(T, T.rindex, c.state, d.yychar).Some? {
        ReduceMeans(T, d, input, Peek(T, T.rindex, c.state, d.yychar).value, valid);
      } else {
        BacktrackMeans(T, d, input, valid);
      }
    }
  }

  lemma ForkMeans(g: Packed, A: Automaton, T: Tables, c: Config, input: nat -> Lexeme, valid: bool)
    requires TablesSound(g, A, T) && QueueOK(c, input) && c.yychar >= 0 && PlainOK(g, A, T, input, Meaning(c))
    requires Decide(T, input, Meaning(c).here).Fork?
    ensures var e := Decide(T, input, Meaning(c).here).e;
            Means(Conflict(T, input, c, e, valid), input, PlainFork(T, input, Meaning(c), e, valid))
  {
    var p := Meaning(c);
    var e := Decide(T, input, p.here).e;
    if c.path != [] {
      OnPath(g, A, T, c, input);
      PathIsShift(g, A, T, input, p);
      ReplayMeans(T, c, input, e, valid);
    } else {
      DecideSound(g, A, T, input, p.here);
      ListStart(g, A, T, Top(p.here.stack), Norm(input(p.here.pos).code), e);
      TrialMeans(T, c, input, e, valid);
    }
  }
}
