/** skeleton.c, the generated parser's loop as a function: one shift or reduction a step, with the
    saved configurations of trial parses and the path being replayed. */
module Machine {
  import opened Grammar
  import opened Output

  datatype Option<T> = None | Some(value: T)

  /** The state stack, and the values of all its entries but the bottom one. */
  datatype Stack = Stack(ss: seq<nat>, vals: seq<Tree>)

  /** An entry of the lexeme queue: the token number and the value that came with it. */
  datatype Token = Token(code: int, val: Lexeme)

  /** A saved configuration: state, stacks, place in the queue, alternative being tried. */
  datatype Save = Save(state: nat, stack: Stack, lexeme: nat, ctry: int)

  /** Failed: a syntax error outside any trial. Aborted: yyabort, on a replay that does not match or
      a trial inside a replay. Crashed: a table or stack index out of range. */
  datatype Status = Running | Accepted | Failed | Aborted | Crashed

  /** yystate, the stacks, yychar and yylval, the queue with yylvp (yylve is its end), how much of
      the input was read, the saves (innermost last), yypath (next first), yyretlval. */
  datatype Config = Config(status: Status, state: nat, stack: Stack, yychar: int, yylval: Lexeme,
                           queue: seq<Token>, lvp: nat, read: nat, saves: seq<Save>, path: seq<Save>, ret: Tree)

  function Norm(code: int): nat {
    if code < 0 then 0 else code
  }

  ghost predicate Shaped(T: Tables) {
    && T.WellSized() && |T.sindex| == |T.rindex| == |T.cindex| == |T.defred|
    && |T.gindex| == |T.dgoto| && |T.lhs| == |T.len|
  }

  /** An action table looked up for state q and token number key. */
  function Peek(T: Tables, index: seq<int>, q: nat, key: int): Option<int>
    requires T.WellSized()
  {
    if q < |index| && T.Hit(index[q], key) then Some(T.table[index[q] + key]) else None
  }

  predicate TopIs(st: Stack, q: nat) {
    |st.ss| > 0 && st.ss[|st.ss| - 1] == q
  }

  function Pushed(st: Stack, q: nat, t: Tree): Stack {
    Stack(st.ss + [q], st.vals + [t])
  }

  datatype Reduced = Reduced(stack: Stack, goal: bool, tree: Tree) | Bad

  /** yyreduce on the stacks: pop the right-hand side, push the state over the left-hand side. */
  function Reduction(T: Tables, st: Stack, y: int): Reduced
    requires Shaped(T)
  {
    if !(0 <= y < |T.len| && 0 <= T.len[y] <= |st.vals| && |st.ss| == |st.vals| + 1) then Bad
    else
      var n := |st.vals| - T.len[y];
      var below := Stack(st.ss[..n + 1], st.vals[..n]);
      var tree := Node(y, st.vals[n..]);
      if st.ss[n] == 0 && T.lhs[y] == 0 then Reduced(Pushed(below, T.final, tree), true, tree)
      else if !(0 <= T.lhs[y] < |T.gindex|) then Bad
      else
        var q := T.GotoTo(st.ss[n], T.lhs[y]);
        if q < 0 then Bad else Reduced(Pushed(below, q, tree), false, tree)
  }

  /** YYLex1: from the queue, or from the lexer, through the queue during a trial. */
  function Lex1(c: Config, input: nat -> Lexeme): Config {
    if c.lvp < |c.queue| then c.(yychar := Norm(c.queue[c.lvp].code), yylval := c.queue[c.lvp].val, lvp := c.lvp + 1)
    else
      var l := input(c.read);
      var d := c.(yychar := Norm(l.code), yylval := l, read := c.read + 1);
      if c.saves != [] then d.(queue := c.queue + [Token(l.code, l)], lvp := |c.queue| + 1) else d
  }

  function ReadToken(c: Config, input: nat -> Lexeme): Config {
    if c.yychar < 0 then Lex1(c, input) else c
  }

  function Restored(c: Config, s: Save): Config {
    c.(yychar := -1, stack := s.stack, state := s.state, lvp := s.lexeme)
  }

  /** yyvalid: the saves become the path, and the parse starts over from the outermost one. */
  function Valid(c: Config): Config
    requires c.saves != []
  {
    if c.path != [] then c.(status := Aborted) else Restored(c, c.saves[0]).(saves := [], path := c.saves)
  }

  /** After a reduction to the goal in state 0: the end of the input ends the parse, or the trial. */
  function LookAhead(input: nat -> Lexeme, c: Config): Config {
    var e := ReadToken(c, input);
    if e.yychar != 0 then e else if e.saves != [] then Valid(e) else e.(status := Accepted)
  }

  /** yyreduce. The action may call YYVALID, which matters during a trial only. */
  function Reduce(T: Tables, input: nat -> Lexeme, c: Config, y: int, valid: bool): Config
    requires Shaped(T)
  {
    if valid && c.saves != [] then Valid(c)
    else match Reduction(T, c.stack, y)
      case Bad => c.(status := Crashed)
      case Reduced(st, goal, tree) =>
        var d := c.(stack := st, state := st.ss[|st.ss| - 1]);
        if !goal then d else LookAhead(input, d.(ret := tree))
  }

  function Shift(c: Config, q: int): Config {
    if q < 0 then c.(status := Crashed) else c.(yychar := -1, state := q, stack := Pushed(c.stack, q, Leaf(c.yylval)))
  }

  /** Alternative ctry of the list at e. */
  function Choose(T: Tables, input: nat -> Lexeme, c: Config, e: int, ctry: int, valid: bool): Config
    requires Shaped(T)
  {
    if !(0 <= ctry < |T.ctable|) then c.(status := Crashed)
    else if e == ctry then Shift(if c.yychar < 0 then c.(lvp := c.lvp + 1) else c, T.ctable[ctry])
    else Reduce(T, input, c, T.ctable[ctry], valid)
  }

  /** The queue at the start of a trial, rewound to before the token at hand. */
  function Rewound(c: Config): Config {
    var d := if c.saves == [] && c.lvp == |c.queue| then
               (if c.yychar >= 0 then c.(queue := [Token(c.yychar, c.yylval)], lvp := 0, yychar := -1)
                   else c.(queue := [], lvp := 0))
             else c;
    if d.yychar < 0 then d
    else if d.lvp == 0 then d.(status := Crashed)
    else d.(lvp := d.lvp - 1, yychar := -1)
  }

  /** A conflict entry e: follow the path, or save the configuration and try the first alternative. */
  function Conflict(T: Tables, input: nat -> Lexeme, c: Config, e: int, valid: bool): Config
    requires Shaped(T)
  {
    if c.path != [] then
      var d := c.(path := c.path[1..]);
      if c.path[0].state != c.state then d.(status := Aborted)
      else Choose(T, input, d, e, c.path[0].ctry, valid)
    else if !(0 <= e < |T.ctable|) then c.(status := Crashed)
    else
      var ctry := if T.ctable[e] == -1 then e + 1 else e;
      var d := Rewound(c);
      if d.status != Running then d
      else Choose(T, input, d.(saves := d.saves + [Save(c.state, c.stack, d.lvp, ctry)]), e, ctry, valid)
  }

  /** yyerrhandler during trials: back to the innermost save with an alternative left. */
  function Backtrack(T: Tables, input: nat -> Lexeme, c: Config, valid: bool): Config
    requires Shaped(T)
    decreases |c.saves|
  {
    if c.saves == [] then c.(status := Failed)
    else
      var n := |c.saves| - 1;
      var s := c.saves[n].(ctry := c.saves[n].ctry + 1);
      var d := Restored(c, s);
      if !(0 <= s.ctry < |T.ctable|) then d.(status := Crashed)
      else if T.ctable[s.ctry] >= 0 then Reduce(T, input, d.(saves := c.saves[..n] + [s]), T.ctable[s.ctry], valid)
      else Backtrack(T, input, d.(saves := c.saves[..n]), valid)
  }

  /** From yyloop to yyloop, or to the end of the parse. */
  function Step(T: Tables, input: nat -> Lexeme, c: Config, valid: bool): Config
    requires Shaped(T)
  {
    if c.status != Running then c
    else if c.state >= |T.defred| then c.(status := Crashed)
    else if T.defred[c.state] != 0 then Reduce(T, input, c, T.defred[c.state], valid)
    else
      var d := ReadToken(c, input);
      var key := d.yychar;
      if Peek(T, T.cindex, c.state, key).Some? then Conflict(T, input, d, Peek(T, T.cindex, c.state, key).value, valid)
      else if Peek(T, T.sindex, c.state, key).Some? then Shift(d, Peek(T, T.sindex, c.state, key).value)
      else if Peek(T, T.rindex, c.state, key).Some? then
          Reduce(T, input, d, Peek(T, T.rindex, c.state, key).value, valid)
      else Backtrack(T, input, d, valid)
  }

  function Start(): Config {
    Config(Running, 0, Stack([0], []), -1, Lexeme(0, 0), [], 0, 0, [], [], Leaf(Lexeme(0, 0)))
  }

  /** n rounds of the loop; yes(k) says whether an action of round k calls YYVALID. */
  function Run(T: Tables, input: nat -> Lexeme, yes: nat -> bool, n: nat): Config
    requires Shaped(T)
  {
    if n == 0 then Start() else Step(T, input, Run(T, input, yes, n - 1), yes(n - 1))
  }
}
