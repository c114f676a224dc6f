/** skeleton.c: yyparse and its helpers, and what every run of it keeps. */
module Skeleton {
  import opened Grammar
  import opened LR0
  import opened Output
  import opened Machine
  import opened MachineStacks
  import opened Trials
  import opened LexemeQueue

  /** What holds of a configuration reached by any number of steps. */
  ghost predicate Good(g: Packed, A: Automaton, T: Tables, input: nat -> Lexeme, c: Config) {
    TablesSound(g, A, T) && RunOK(g, A, T, input, Meaning(c)) && (c.status.Running? ==> QueueOK(c, input))
  }

  lemma StartGood(g: Packed, A: Automaton, T: Tables, input: nat -> Lexeme)
    requires TablesSound(g, A, T)
    ensures Good(g, A, T, input, Start())
  {
    var c := Start();
    assert Consumed(input, 0) == [];
    assert Meaning(c).saves == [] && Meaning(c).path == [];
  }

  lemma StepGood(g: Packed, A: Automaton, T: Tables, input: nat -> Lexeme, c: Config, valid: bool)
    requires Good(g, A, T, input, c)
    ensures Good(g, A, T, input, Step(T, input, c, valid))
  {
    if c.status.Running? {
      StepMeans(g, A, T, c, input, valid);
      StepOK(g, A, T, input, Meaning(c), valid);
    }
  }

  /** Every configuration of every run, whatever the input and whenever actions call YYVALID. */
  lemma {:induction false} RunGood(g: Packed, A: Automaton, T: Tables, input: nat -> Lexeme, yes: nat -> bool, n: nat)
    requires TablesSound(g, A, T)
    ensures Good(g, A, T, input, Run(T, input, yes, n))
  {
    if n == 0 {
      StartGood(g, A, T, input);
    } else {
      RunGood(g, A, T, input, yes, n - 1);
      StepGood(g, A, T, input, Run(T, input, yes, n - 1), yes(n - 1));
    }
  }

  /** The number of tokens a configuration has consumed. */
  ghost function Taken(c: Config): nat {
    Floor(Pos(c))
  }

  /** Soundness: a run that accepts has a parse tree of the goal over exactly the tokens consumed,
      and the input goes on with the end token. */
  lemma Soundness(g: Packed, A: Automaton, T: Tables, input: nat -> Lexeme, yes: nat -> bool, n: nat)
    requires TablesSound(g, A, T) && Run(T, input, yes, n).status.Accepted?
    ensures var c := Run(T, input, yes, n);
            && Parses(g.ToCfg(), c.ret, g.ntokens + 1) && Yield(c.ret) == Consumed(input, Taken(c)) &&
                input(Taken(c)).code <= 0
            && c.saves == [] && c.path == []
    ensures Derives(g.ToCfg(), g.ntokens + 1, Consumed(input, Taken(Run(T, input, yes, n))))
  {
    RunGood(g, A, T, input, yes, n);
  }

  /** No run leaves its tables, its stacks or its queue, and no replay is aborted. */
  lemma NeverLost(g: Packed, A: Automaton, T: Tables, input: nat -> Lexeme, yes: nat -> bool, n: nat)
    requires TablesSound(g, A, T)
    ensures !Run(T, input, yes, n).status.Crashed? && !Run(T, input, yes, n).status.Aborted?
  {
    RunGood(g, A, T, input, yes, n);
  }

  /** While a path is replayed, the parse is coming, without a choice to make, to the very spot the
      next entry of the path was saved at; during a trial each choice was made where the one before
      it led, and the last led here. */
  ghost predicate OnCourse(T: Tables, input: nat -> Lexeme, p: Plain)
    requires Shaped(T)
  {
    && (p.path != [] ==> p.saves == [] && Linked(T, input, p.path) && Leads(T, input, p.here, p.path[0].spot))
    && (p.saves != [] ==> Linked(T, input, p.saves) && ComesTo(T, input, p.saves[|p.saves| - 1], p.here))
  }

  lemma RunOnCourse(g: Packed, A: Automaton, T: Tables, input: nat -> Lexeme, yes: nat -> bool, n: nat)
    requires TablesSound(g, A, T) && Run(T, input, yes, n).status.Running?
    ensures OnCourse(T, input, Meaning(Run(T, input, yes, n)))
  {
    RunGood(g, A, T, input, yes, n);
  }

  /** Backtracking and replay read again what was read before: at any point of any run the next
      token delivered is the one at the present place of the input. */
  lemma SameTokens(g: Packed, A: Automaton, T: Tables, input: nat -> Lexeme, yes: nat -> bool, n: nat)
    requires TablesSound(g, A, T) && Run(T, input, yes, n).status.Running?
    ensures var c := Run(T, input, yes, n);
            ReadToken(c, input).yychar == Norm(input(Taken(c)).code) && ReadToken(c, input).yylval == input(Taken(c))
  {
    RunGood(g, A, T, input, yes, n);
    var c := Run(T, input, yes, n);
    OnPath(g, A, T, c, input);
    ReadMeans(c, input);
  }

  /** An error in a trial with an alternative left is a reduction from the saved stack, at the
      place in the input where the conflict was met. */
  lemma BacktrackRestores(g: Packed, A: Automaton, T: Tables, input: nat -> Lexeme, c: Config, valid: bool)
    requires Good(g, A, T, input, c) && c.status.Running? && Meaning(c).saves != [] && Shaped(T)
    requires Decide(T, input, Meaning(c).here).Stuck?
    requires 0 <= NextTry(Meaning(c)) < |T.ctable| && T.ctable[NextTry(Meaning(c))] >= 0
    ensures Meaning(Step(T, input, c, valid)) == PlainDo(T, input, Retried(Meaning(c)),
        DoReduce(T.ctable[NextTry(Meaning(c))]), valid)
    ensures Retried(Meaning(c)).here == Meaning(c).saves[|c.saves| - 1].spot
  {
    StepMeans(g, A, T, c, input, valid);
    hide Step, PlainDo, RunOK, QueueOK, TablesSound, Decide, Retried;
  }

  class Parser {
    const T: Tables
    const input: nat -> Lexeme
    ghost const g: Packed
    ghost const A: Automaton
    var status: Status
    var yystate: nat
    var ss: seq<nat>
    var vs: seq<Tree>
    var yychar: int
    var yylval: Lexeme
    var queue: seq<Token>
    var yylvp: nat
    var nread: nat
    var save: seq<Save>
    var yypath: seq<Save>
    var yyretlval: Tree

    ghost function Now(): Config
      reads this
    {
      Config(status, yystate, Stack(ss, vs), yychar, yylval, queue, yylvp, nread, save, yypath, yyretlval)
    }

    ghost predicate Valid()
      reads this
    {
      Good(g, A, T, input, Now())
    }

    constructor (T: Tables, input: nat -> Lexeme, ghost g: Packed, ghost A: Automaton)
      requires TablesSound(g, A, T)
      ensures Valid() && Now() == Start() && this.T == T && this.input == input && this.g == g && this.A == A
    {
      this.T, this.input, this.g, this.A := T, input, g, A;
      status, yystate, ss, vs := Running, 0, [0], [];
      yychar, yylval := -1, Lexeme(0, 0);
      queue, yylvp, nread := [], 0, 0;
      save, yypath, yyretlval := [], [], Leaf(Lexeme(0, 0));
      new;
      StartGood(g, A, T, input);
    }

    /** YYLex1, and the callers' replacement of a negative number by the end token. */
    method NextToken()
      modifies this
      ensures Now() == Lex1(old(Now()), input)
    {
      if yylvp < |queue| {
        yychar := Norm(queue[yylvp].code);
        yylval := queue[yylvp].val;
        yylvp := yylvp + 1;
      } else {
        var l := input(nread);
        nread := nread + 1;
        yylval := l;
        yychar := Norm(l.code);
        if save != [] {
          queue := queue + [Token(l.code, l)];
          yylvp := |queue|;
        }
      }
    }

    method Restore(s: Save)
      modifies this
      ensures Now() == Restored(old(Now()), s)
    {
      yylvp := s.lexeme;
      yychar := -1;
      ss, vs := s.stack.ss, s.stack.vals;
      yystate := s.state;
    }

    /** yyvalid: the list of saves is turned round into the path. */
    method TurnRound()
      requires save != []
      modifies this
      ensures Now() == Machine.Valid(old(Now()))
    {
      if yypath != [] {
        status := Aborted;
        return;
      }
      ghost var saves := save;
      while save != []
        invariant save + yypath == saves && Now() == old(Now()).(saves := save, path := yypath)
        decreases |save|
      {
        yypath := [save[|save| - 1]] + yypath;
        save := save[..|save| - 1];
      }
      Restore(yypath[0]);
    }

    /** yyshift. */
    method Push(state: nat)
      modifies this
      ensures Now() == Shift(old(Now()), state)
    {
      yychar := -1;
      yystate := state;
      ss := ss + [state];
      vs := vs + [Leaf(yylval)];
    }

    /** yyreduce, once the final state is pushed. */
    method AtGoal()
      modifies this
      ensures Now() == LookAhead(input, old(Now()))
    {
      if yychar < 0 {
        NextToken();
      }
      if yychar == 0 {
        if save != [] {
          TurnRound();
        } else {
          status := Accepted;
        }
      }
    }

    /** The goto of the state uncovered, over the left-hand side. */
    method GotoState(state: nat, yym: nat) returns (q: int)
      requires Shaped(T) && yym < |T.gindex|
      ensures q == T.GotoTo(state, yym)
    {
      var b := T.gindex[yym];
      if b != 0 && b + state >= 0 && b + state <= T.size && T.check[b + state] == state {
        q := T.table[b + state];
      } else {
        q := T.dgoto[yym];
      }
    }

    /** The pops and the push of yyreduce. */
    method Replace(y: int) returns (goal: bool, val: Tree)
      requires Shaped(T) && Reduction(T, Stack(ss, vs), y).Reduced?
      modifies `yystate, `ss, `vs
      ensures Reduced(Stack(ss, vs), goal, val) == Reduction(T, old(Stack(ss, vs)), y)
      ensures TopIs(Stack(ss, vs), yystate)
    {
      var n := |vs| - T.len[y];
      val := Node(y, vs[n..]);
      ss := ss[..n + 1];
      vs := vs[..n];
      yystate := ss[n];
      var yym := T.lhs[y];
      goal := yystate == 0 && yym == 0;
      if goal {
        yystate := T.final;
      } else {
        yystate := GotoState(yystate, yym);
      }
      ss, vs := ss + [yystate], vs + [val];
    }

    /** yyreduce. */
    method ReduceBy(y: int, valid: bool)
      requires Shaped(T) && status.Running? && !Reduce(T, input, Now(), y, valid).status.Crashed?
      modifies this
      ensures Now() == Reduce(T, input, old(Now()), y, valid)
    {
      if valid && save != [] {
        TurnRound();
        return;
      }
      var goal, val := Replace(y);
      if goal {
        yyretlval := val;
        AtGoal();
      }
    }

    /** The alternative at place ctry of yyctable, for the conflict entry e. */
    method TakeAlternative(e: int, ctry: int, valid: bool)
      requires Shaped(T) && status.Running? && !Choose(T, input, Now(), e, ctry, valid).status.Crashed?
      modifies this
      ensures Now() == Choose(T, input, old(Now()), e, ctry, valid)
    {
      if e == ctry {
        if yychar < 0 {
          yylvp := yylvp + 1;
        }
        Push(T.ctable[ctry]);
      } else {
        ReduceBy(T.ctable[ctry], valid);
      }
    }

    /** The start of a trial in the queue: a used up queue is started afresh with the token at hand. */
    method Rewind()
      requires !Rewound(Now()).status.Crashed?
      modifies this
      ensures Now() == Rewound(old(Now()))
    {
      if save == [] && yylvp == |queue| {
        yylvp := 0;
        queue := [];
        if yychar >= 0 {
          queue := queue + [Token(yychar, yylval)];
          yychar := -1;
        }
      }
      if yychar >= 0 {
        yylvp := yylvp - 1;
        yychar := -1;
      }
    }

    /** A conflict: the path decides, or a trial starts. */
    method OnConflict(e: int, valid: bool)
      requires Shaped(T) && status.Running? && !Conflict(T, input, Now(), e, valid).status.Crashed?
      modifies this
      ensures Now() == Conflict(T, input, old(Now()), e, valid)
    {
      if yypath != [] {
        var head := yypath[0];
        yypath := yypath[1..];
        if head.state != yystate {
          status := Aborted;
          return;
        }
        TakeAlternative(e, head.ctry, valid);
      } else {
        var ctry := if T.ctable[e] == -1 then e + 1 else e;
        Rewind();
        save := save + [Save(yystate, Stack(ss, vs), yylvp, ctry)];
        TakeAlternative(e, ctry, valid);
      }
    }

    /** yyerrhandler: back to the saves, innermost first, until one has an alternative left. */
    method OnError(valid: bool)
      requires Shaped(T) && status.Running? && !Backtrack(T, input, Now(), valid).status.Crashed?
      modifies this
      ensures Now() == Backtrack(T, input, old(Now()), valid)
    {
      ghost var result := Backtrack(T, input, Now(), valid);
      while save != []
        invariant status.Running? && Backtrack(T, input, Now(), valid) == result
        decreases |save|
      {
        var n := |save| - 1;
        var s := save[n].(ctry := save[n].ctry + 1);
        save := save[..n] + [s];
        Restore(s);
        if T.ctable[s.ctry] >= 0 {
          ReduceBy(T.ctable[s.ctry], valid);
          return;
        }
        save := save[..n];
      }
      status := Failed;
    }

    /** From yyloop to yyloop. */
    method Round(valid: bool)
      requires Valid() && status.Running?
      modifies this
      ensures Valid() && Now() == Step(T, input, old(Now()), valid)
    {
      StepGood(g, A, T, input, Now(), valid);
      var yyn: int := T.defred[yystate];
      if yyn != 0 {
        ReduceBy(yyn, valid);
        return;
      }
      if yychar < 0 {
        NextToken();
      }
      var e := Entry(T.cindex);
      if e.Some? {
        OnConflict(e.value, valid);
        return;
      }
      var q := Entry(T.sindex);
      if q.Some? {
        Push(q.value);
        return;
      }
      var y := Entry(T.rindex);
      if y.Some? {
        ReduceBy(y.value, valid);
      } else {
        OnError(valid);
      }
    }

    /** The probe of an action table for the present state and token. */
    method Entry(index: seq<int>) returns (r: Option<int>)
      requires T.WellSized() && yystate < |index|
      ensures r == Peek(T, index, yystate, yychar)
    {
      var yyn := index[yystate];
      if yyn != 0 && yyn + yychar >= 0 && yyn + yychar <= T.size && T.check[yyn + yychar] == yychar {
        r := Some(T.table[yyn + yychar]);
      } else {
        r := None;
      }
    }

    /** yyparse for at most n rounds: what it accepts is parsed, and it never aborts or strays. */
    method Parse(yes: nat -> bool, n: nat)
      requires Valid() && Now() == Start()
      modifies this
      ensures Valid() && Now() == Run(T, input, yes, n)
      ensures !status.Aborted? && !status.Crashed?
      ensures status.Accepted? ==>
                Parses(g.ToCfg(), yyretlval, g.ntokens + 1) && Yield(yyretlval) == Consumed(input, Taken(Now())) &&
                    input(Taken(Now())).code <= 0
    {
      var k := 0;
      while k < n && status.Running?
        invariant k <= n && Valid() && Now() == Run(T, input, yes, k)
      {
        Round(yes(k));
        k := k + 1;
      }
      RunEnded(T, input, yes, k, n);
    }
  }

  /** An ended run stays as it is. */
  lemma {:induction false} RunEnded(T: Tables, input: nat -> Lexeme, yes: nat -> bool, k: nat, n: nat)
    requires Shaped(T) && k <= n && (k == n || !Run(T, input, yes, k).status.Running?)
    ensures Run(T, input, yes, n) == Run(T, input, yes, k)
    decreases n
  {
    if k < n {
      RunEnded(T, input, yes, k, n - 1);
    }
  }
}
