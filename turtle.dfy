/** The turtle interpreter `linedata`: the tokens of a generation move a
    stack of transforms, draw polylines and collect polygons. The matrix
    arithmetic of the transforms is kept symbolic: a transform is the list
    of motions applied to the identity, a step length the list of factors
    multiplied into 1, and a point the transform it was taken from. */
module LineData {
  import opened JsText
  import opened Scanner
  import opened Expansion

  /** One factor of a step length: `parseFloat` of the digits, raised to
      the system's order when `^` is present, then inverted or
      square-rooted as the mode says. */
  datatype Factor = Factor(base: Num, power: Option<nat>, mode: Mode)

  /** A step length: the product of its factors, 1 when there are none. */
  type Step = seq<Factor>

  datatype Motion = Translate(step: Step) | Rotate(degrees: Num)

  /** A transform: the motions applied, in order, to the identity. */
  type Frame = seq<Motion>

  /** A point: the origin under a transform, or the point one step ahead
      of it; `Missing` is the `undefined` that closing an empty polygon
      appends. */
  datatype Point = Origin(frame: Frame) | Ahead(frame: Frame, step: Step) | Missing

  /** An entry of the transform stack `mat`, with its own `_step`. */
  datatype Entry = Entry(frame: Frame, step: Step)

  datatype TurtleError =
    | NoPolygonForDot       // `.` with no open polygon
    | NoPolygonToClose      // `}` with no open polygon
    | TransformStackEmpty   // `]` that pops the last transform

  /** The four lists of `linedata`: the transform stack (top first), the
      open polygons (innermost first), the lines (newest first) and the
      closed polygons (oldest first). */
  datatype State = State(
    mat: seq<Entry>,
    editpolys: seq<seq<Point>>,
    lines: seq<seq<Point>>,
    polygons: seq<seq<Point>>)

  /** What `linedata` resolves with. */
  datatype Drawing = Drawing(lines: seq<seq<Point>>, polygons: seq<seq<Point>>)

  /** The transform stack and the lines are never empty. */
  predicate Wellformed(st: State) {
    |st.mat| >= 1 && |st.lines| >= 1
  }

  /** One identity transform with step 1, and one line holding its origin. */
  function Initial(): (st: State)
    ensures Wellformed(st)
  {
    State([Entry([], [])], [], [[Origin([])]], [])
  }

  // ---------------------------------------------------------------------
  // The helpers of `linedata`

  function Top(st: State): Entry
    requires Wellformed(st)
  {
    st.mat[0]
  }

  /** `start_new_line`: a new line holding the current origin goes first. */
  function StartNewLine(st: State): State
    requires Wellformed(st)
  {
    st.(lines := [[Origin(Top(st).frame)]] + st.lines)
  }

  /** `draw_line`: the point one step ahead joins the newest line. */
  function DrawLine(st: State): State
    requires Wellformed(st)
  {
    st.(lines := [st.lines[0] + [Ahead(Top(st).frame, Top(st).step)]] + st.lines[1..])
  }

  /** Replaces the top transform. */
  function WithTop(st: State, top: Entry): State
    requires Wellformed(st)
  {
    st.(mat := [top] + st.mat[1..])
  }

  /** `just_move`: the top transform moves one step ahead. */
  function JustMove(st: State): State
    requires Wellformed(st)
  {
    WithTop(st, Entry(Top(st).frame + [Translate(Top(st).step)], Top(st).step))
  }

  /** `rotateDeg` on the top transform. */
  function Turn(st: State, degrees: Num): State
    requires Wellformed(st)
  {
    WithTop(st, Entry(Top(st).frame + [Rotate(degrees)], Top(st).step))
  }

  /** A closed polygon: the open one with its first point repeated at the
      end, or `undefined` when it has no first point. */
  function CloseRing(ring: seq<Point>): (r: seq<Point>)
    ensures |r| == |ring| + 1 && r[..|ring|] == ring
  {
    ring + [if ring == [] then Missing else ring[0]]
  }

  /** The factor a directive multiplies into the top step; `order` is the
      order of the system, whatever generation is drawn. */
  function FactorOf(mode: Mode, digits: string, raised: bool, order: nat): Factor {
    Factor(ParseFloat(digits), if raised then Some(order) else None, mode)
  }

  /** One token of the scan. Characters without an instruction do nothing. */
  function Exec(st: State, angle: Num, order: nat, t: Token): (r: Result<State, TurtleError>)
    requires Wellformed(st)
  {
    match t
    case Directive(mode, digits, raised) =>
      Ok(WithTop(st, Entry(Top(st).frame, Top(st).step + [FactorOf(mode, digits, raised, order)])))
    case Symbol(c) =>
      if c == 'F' then Ok(JustMove(DrawLine(st)))
      else if c == 'f' then Ok(StartNewLine(DrawLine(st)))
      else if c == 'g' then Ok(StartNewLine(JustMove(st)))
      else if c == '+' then Ok(Turn(st, angle))
      else if c == '-' then Ok(Turn(st, Negate(angle)))
      else if c == '|' then Ok(Turn(st, Finite(180.0)))
      else if c == '[' then Ok(st.(mat := [Top(st)] + st.mat))
      else if c == ']' then
        if |st.mat| == 1 then Err(TransformStackEmpty)
        else Ok(StartNewLine(st.(mat := st.mat[1..])))
      else if c == '.' then
        if st.editpolys == [] then Err(NoPolygonForDot)
        else Ok(st.(editpolys := [st.editpolys[0] + [Origin(Top(st).frame)]] + st.editpolys[1..]))
      else if c == '{' then Ok(st.(editpolys := [[]] + st.editpolys))
      else if c == '}' then
        if st.editpolys == [] then Err(NoPolygonToClose)
        else Ok(st.(editpolys := st.editpolys[1..], polygons := st.polygons + [CloseRing(st.editpolys[0])]))
      else Ok(st)
  }

  /** Every step keeps the state well formed. */
  lemma ExecWellformed(st: State, angle: Num, order: nat, t: Token)
    requires Wellformed(st)
    ensures Exec(st, angle, order, t).Ok? ==> Wellformed(Exec(st, angle, order, t).value)
  {
  }

  /** The tokens in order; the first error ends the run. */
  function Run(st: State, angle: Num, order: nat, ts: seq<Token>): (r: Result<State, TurtleError>)
    requires Wellformed(st)
    ensures r.Ok? ==> Wellformed(r.value)
    decreases |ts|
  {
    if ts == [] then Ok(st)
    else
      ExecWellformed(st, angle, order, ts[0]);
      match Exec(st, angle, order, ts[0])
      case Err(e) => Err(e)
      case Ok(next) => Run(next, angle, order, ts[1..])
  }

  /** `linedata` on the string of a generation: the tokens the scan reads,
      run from the initial state. */
  function Render(str: string, angle: Num, order: nat): Result<Drawing, TurtleError> {
    Draw(angle, order, Scan(str).0)
  }

  /** The drawing made by a run of tokens from the initial state. */
  function Draw(angle: Num, order: nat, ts: seq<Token>): Result<Drawing, TurtleError> {
    match Run(Initial(), angle, order, ts)
    case Err(e) => Err(e)
    case Ok(st) => Ok(Drawing(st.lines, st.polygons))
  }

  // ---------------------------------------------------------------------
  // What one token does

  /** 1 when `t` is the symbol `c`, else 0. */
  function Tally(t: Token, c: char): nat {
    if t == Symbol(c) then 1 else 0
  }

  /** How many of the tokens are the symbol `c`. */
  function Count(ts: seq<Token>, c: char): nat
    decreases |ts|
  {
    if ts == [] then 0 else Tally(ts[0], c) + Count(ts[1..], c)
  }

  /** The number of points over all lines. */
  function Points(lines: seq<seq<Point>>): nat
    decreases |lines|
  {
    if lines == [] then 0 else |lines[0]| + Points(lines[1..])
  }

  lemma PointsCons(line: seq<Point>, rest: seq<seq<Point>>)
    ensures Points([line] + rest) == |line| + Points(rest)
  {
    assert ([line] + rest)[1..] == rest;
  }

  /** A step fails exactly when `.` or `}` finds no open polygon, or when
      `]` would pop the last transform; each with its own error. */
  lemma ExecFails(st: State, angle: Num, order: nat, t: Token)
    requires Wellformed(st)
    ensures Exec(st, angle, order, t) == Err(NoPolygonForDot) <==> t == Symbol('.') && st.editpolys == []
    ensures Exec(st, angle, order, t) == Err(NoPolygonToClose) <==> t == Symbol('}') && st.editpolys == []
    ensures Exec(st, angle, order, t) == Err(TransformStackEmpty) <==> t == Symbol(']') && |st.mat| == 1
    ensures Exec(st, angle, order, t).Err? <==>
      || (t == Symbol('.') && st.editpolys == [])
      || (t == Symbol('}') && st.editpolys == [])
      || (t == Symbol(']') && |st.mat| == 1)
  {
  }

  /** How one token changes the lines: `F` and `f` add the point one step
      ahead to the newest line, `f`, `g` and `]` then start a new line at
      the current origin, and no other token touches the lines. */
  lemma ExecLines(st: State, angle: Num, order: nat, t: Token)
    requires Wellformed(st) && Exec(st, angle, order, t).Ok?
    ensures var r := Exec(st, angle, order, t).value;
      var ahead := [st.lines[0] + [Ahead(Top(st).frame, Top(st).step)]] + st.lines[1..];
      && (t == Symbol('F') ==> r.lines == ahead)
      && (t == Symbol('f') ==> r.lines == [[Origin(Top(st).frame)]] + ahead)
      && (t == Symbol('g') ==> r.lines == [[Origin(Top(st).frame + [Translate(Top(st).step)])]] + st.lines)
      && (t == Symbol(']') ==> r.lines == [[Origin(st.mat[1].frame)]] + st.lines)
      && (t !in {Symbol('F'), Symbol('f'), Symbol('g'), Symbol(']')} ==> r.lines == st.lines)
  {
  }

  /** How one token changes the counts: lines, points, open and closed
      polygons, and the depth of the transform stack. Closed polygons are
      only ever appended. */
  lemma ExecCounts(st: State, angle: Num, order: nat, t: Token)
    requires Wellformed(st) && Exec(st, angle, order, t).Ok?
    ensures var r := Exec(st, angle, order, t).value;
      && |r.lines| == |st.lines| + Tally(t, 'f') + Tally(t, 'g') + Tally(t, ']')
      && Points(r.lines) == Points(st.lines) + Tally(t, 'F') + 2 * Tally(t, 'f') + Tally(t, 'g') + Tally(t, ']')
      && |r.polygons| == |st.polygons| + Tally(t, '}')
      && r.polygons[..|st.polygons|] == st.polygons
      && |r.mat| + Tally(t, ']') == |st.mat| + Tally(t, '[')
      && |r.editpolys| + Tally(t, '}') == |st.editpolys| + Tally(t, '{')
  {
    ExecPoints(st, angle, order, t);
  }

  /** How one token changes the number of lines and of points. */
  lemma ExecPoints(st: State, angle: Num, order: nat, t: Token)
    requires Wellformed(st) && Exec(st, angle, order, t).Ok?
    ensures var r := Exec(st, angle, order, t).value;
      && |r.lines| == |st.lines| + Tally(t, 'f') + Tally(t, 'g') + Tally(t, ']')
      && Points(r.lines) == Points(st.lines) + Tally(t, 'F') + 2 * Tally(t, 'f') + Tally(t, 'g') + Tally(t, ']')
  {
    var r := Exec(st, angle, order, t).value;
    ExecLines(st, angle, order, t);
    PointsCons(st.lines[0], st.lines[1..]);
    assert [st.lines[0]] + st.lines[1..] == st.lines;
    var ahead := [st.lines[0] + [Ahead(Top(st).frame, Top(st).step)]] + st.lines[1..];
    PointsCons(st.lines[0] + [Ahead(Top(st).frame, Top(st).step)], st.lines[1..]);
    if t == Symbol('f') {
      PointsCons([Origin(Top(st).frame)], ahead);
    } else if t == Symbol('g') || t == Symbol(']') {
      PointsCons(r.lines[0], st.lines);
    }
  }

  /** Lines never become empty, and every closed polygon ends where it
      starts: it has at least two points, or is the lone `undefined` of an
      empty one. */
  predicate Tidy(st: State) {
    && (forall i :: 0 <= i < |st.lines| ==> st.lines[i] != [])
    && (forall i :: 0 <= i < |st.polygons| ==>
          && (|st.polygons[i]| >= 2 || st.polygons[i] == [Missing])
          && st.polygons[i][|st.polygons[i]| - 1] == st.polygons[i][0])
  }

  lemma ExecTidy(st: State, angle: Num, order: nat, t: Token)
    requires Wellformed(st) && Tidy(st) && Exec(st, angle, order, t).Ok?
    ensures Tidy(Exec(st, angle, order, t).value)
  {
    ExecLines(st, angle, order, t);
    var r := Exec(st, angle, order, t).value;
    if t == Symbol('}') {
      assert r.polygons == st.polygons + [CloseRing(st.editpolys[0])];
    }
  }

  /** A directive multiplies its factor into the step of the top transform
      only: the transform itself, the entries below and the lists are as
      they were. */
  lemma ExecDirective(st: State, angle: Num, order: nat, mode: Mode, digits: string, raised: bool)
    requires Wellformed(st)
    ensures Exec(st, angle, order, Directive(mode, digits, raised)).Ok?
    ensures var r := Exec(st, angle, order, Directive(mode, digits, raised)).value;
      && |r.mat| == |st.mat| && r.mat[1..] == st.mat[1..]
      && r.mat[0].frame == st.mat[0].frame
      && r.mat[0].step == st.mat[0].step + [Factor(ParseFloat(digits), if raised then Some(order) else None, mode)]
      && r.lines == st.lines && r.editpolys == st.editpolys && r.polygons == st.polygons
  {
  }

  /** `[` then `]` gives back the transform stack, and starts a new line at
      the origin it had. */
  lemma PushPop(st: State, angle: Num, order: nat)
    requires Wellformed(st)
    ensures Exec(st, angle, order, Symbol('[')).Ok?
    ensures var pushed := Exec(st, angle, order, Symbol('[')).value;
      && pushed.mat == [st.mat[0]] + st.mat
      && Exec(pushed, angle, order, Symbol(']')) == Ok(StartNewLine(st))
  {
    var pushed := Exec(st, angle, order, Symbol('[')).value;
    assert pushed.mat[1..] == st.mat;
  }

  /** Tokens other than `[` and `]` leave the entries below the top alone. */
  lemma ExecKeepsLower(st: State, angle: Num, order: nat, t: Token)
    requires Wellformed(st) && Exec(st, angle, order, t).Ok?
    requires t != Symbol('[') && t != Symbol(']')
    ensures |Exec(st, angle, order, t).value.mat| == |st.mat|
    ensures Exec(st, angle, order, t).value.mat[1..] == st.mat[1..]
  {
  }

  // ---------------------------------------------------------------------
  // What a run of tokens does

  /** Running two runs of tokens is running the first and then the second
      from where the first left off. */
  lemma {:induction false} RunAppend(st: State, angle: Num, order: nat, a: seq<Token>, b: seq<Token>)
    requires Wellformed(st)
    ensures Run(st, angle, order, a + b) ==
      match Run(st, angle, order, a)
      case Err(e) => Err(e)
      case Ok(mid) => Run(mid, angle, order, b)
    decreases |a|
  {
    if a == [] {
      assert a + b == b;
    } else {
      assert (a + b)[0] == a[0] && (a + b)[1..] == a[1..] + b;
      ExecWellformed(st, angle, order, a[0]);
      if Exec(st, angle, order, a[0]).Ok? {
        RunAppend(Exec(st, angle, order, a[0]).value, angle, order, a[1..], b);
      }
    }
  }

  /** The counts after a run: one line more per `f`, `g` and `]`; one point
      more per `F`, `g` and `]` and two per `f`; one closed polygon more per
      `}`, appended after the earlier ones; and the transform stack and the
      open polygons as deep as their pushes and pops say. */
  lemma {:induction false} RunCounts(st: State, angle: Num, order: nat, ts: seq<Token>)
    requires Wellformed(st) && Run(st, angle, order, ts).Ok?
    ensures var r := Run(st, angle, order, ts).value;
      && |r.lines| == |st.lines| + Count(ts, 'f') + Count(ts, 'g') + Count(ts, ']')
      && Points(r.lines) == Points(st.lines) + Count(ts, 'F') + 2 * Count(ts, 'f') + Count(ts, 'g') + Count(ts, ']')
      && |r.polygons| == |st.polygons| + Count(ts, '}')
      && r.polygons[..|st.polygons|] == st.polygons
      && |r.mat| + Count(ts, ']') == |st.mat| + Count(ts, '[')
      && |r.editpolys| + Count(ts, '}') == |st.editpolys| + Count(ts, '{')
    decreases |ts|
  {
    if ts != [] {
      var next := Exec(st, angle, order, ts[0]).value;
      ExecCounts(st, angle, order, ts[0]);
      ExecWellformed(st, angle, order, ts[0]);
      RunCounts(next, angle, order, ts[1..]);
      var r := Run(st, angle, order, ts).value;
      assert r.polygons[..|st.polygons|] == r.polygons[..|next.polygons|][..|st.polygons|];
    }
  }

  /** A run keeps every line non-empty and every closed polygon closed. */
  lemma {:induction false} RunTidy(st: State, angle: Num, order: nat, ts: seq<Token>)
    requires Wellformed(st) && Tidy(st) && Run(st, angle, order, ts).Ok?
    ensures Tidy(Run(st, angle, order, ts).value)
    decreases |ts|
  {
    if ts != [] {
      ExecTidy(st, angle, order, ts[0]);
      ExecWellformed(st, angle, order, ts[0]);
      RunTidy(Exec(st, angle, order, ts[0]).value, angle, order, ts[1..]);
    }
  }

  /** Without `.`, `}` and `]` a run cannot fail. */
  lemma {:induction false} RunSafe(st: State, angle: Num, order: nat, ts: seq<Token>)
    requires Wellformed(st)
    requires Count(ts, '.') == 0 && Count(ts, '}') == 0 && Count(ts, ']') == 0
    ensures Run(st, angle, order, ts).Ok?
    decreases |ts|
  {
    if ts != [] {
      ExecFails(st, angle, order, ts[0]);
      ExecWellformed(st, angle, order, ts[0]);
      RunSafe(Exec(st, angle, order, ts[0]).value, angle, order, ts[1..]);
    }
  }

  /** A run without `[` and `]` changes only the top of the transform stack. */
  lemma {:induction false} RunKeepsLower(st: State, angle: Num, order: nat, ts: seq<Token>)
    requires Wellformed(st) && Run(st, angle, order, ts).Ok?
    requires Count(ts, '[') == 0 && Count(ts, ']') == 0
    ensures |Run(st, angle, order, ts).value.mat| == |st.mat|
    ensures Run(st, angle, order, ts).value.mat[1..] == st.mat[1..]
    decreases |ts|
  {
    if ts != [] {
      ExecKeepsLower(st, angle, order, ts[0]);
      ExecWellformed(st, angle, order, ts[0]);
      RunKeepsLower(Exec(st, angle, order, ts[0]).value, angle, order, ts[1..]);
    }
  }

  /** `[`, tokens without brackets, then `]`: whatever the tokens did to the
      transform and its step, the stack is given back as it was. */
  lemma Bracketed(st: State, angle: Num, order: nat, ts: seq<Token>)
    requires Wellformed(st)
    requires Count(ts, '[') == 0 && Count(ts, ']') == 0
    requires Run(st, angle, order, [Symbol('[')] + ts + [Symbol(']')]).Ok?
    ensures Run(st, angle, order, [Symbol('[')] + ts + [Symbol(']')]).value.mat == st.mat
  {
    var pushed := Exec(st, angle, order, Symbol('[')).value;
    BracketRun(st, angle, order, ts);
    var inner := Run(pushed, angle, order, ts);
    RunKeepsLower(pushed, angle, order, ts);
    assert inner.value.mat[1..] == st.mat;
  }

  /** `[`, tokens, `]`: the push, the tokens from the pushed state, then the
      pop. */
  lemma BracketRun(st: State, angle: Num, order: nat, ts: seq<Token>)
    requires Wellformed(st)
    requires Run(st, angle, order, [Symbol('[')] + ts + [Symbol(']')]).Ok?
    ensures Exec(st, angle, order, Symbol('[')).Ok?
    ensures var pushed := Exec(st, angle, order, Symbol('[')).value;
      && pushed.mat == [Top(st)] + st.mat
      && Run(pushed, angle, order, ts).Ok?
      && Run(st, angle, order, [Symbol('[')] + ts + [Symbol(']')])
         == Exec(Run(pushed, angle, order, ts).value, angle, order, Symbol(']'))
  {
    var pushed := Exec(st, angle, order, Symbol('[')).value;
    RunCons(st, angle, order, Symbol('['), ts + [Symbol(']')]);
    assert [Symbol('[')] + ts + [Symbol(']')] == [Symbol('[')] + (ts + [Symbol(']')]);
    RunAppend(pushed, angle, order, ts, [Symbol(']')]);
    if Run(pushed, angle, order, ts).Ok? {
      var mid := Run(pushed, angle, order, ts).value;
      RunCons(mid, angle, order, Symbol(']'), []);
      assert [Symbol(']')] + [] == [Symbol(']')];
      ExecWellformed(mid, angle, order, Symbol(']'));
    }
  }

  // ---------------------------------------------------------------------
  // What a drawing holds

  /** A drawing has one line to start with and one more per `f`, `g` and
      `]` read; one point to start with, one more per `F`, `g` and `]` and
      two per `f`; one polygon per `}`; its lines are never empty and its
      polygons end where they start. */
  lemma DrawCounts(angle: Num, order: nat, ts: seq<Token>)
    requires Draw(angle, order, ts).Ok?
    ensures var d := Draw(angle, order, ts).value;
      && |d.lines| == 1 + Count(ts, 'f') + Count(ts, 'g') + Count(ts, ']')
      && Points(d.lines) == 1 + Count(ts, 'F') + 2 * Count(ts, 'f') + Count(ts, 'g') + Count(ts, ']')
      && |d.polygons| == Count(ts, '}')
      && (forall i :: 0 <= i < |d.lines| ==> d.lines[i] != [])
      && (forall i :: 0 <= i < |d.polygons| ==>
            && (|d.polygons[i]| >= 2 || d.polygons[i] == [Missing])
            && d.polygons[i][|d.polygons[i]| - 1] == d.polygons[i][0])
  {
    var init := Initial();
    assert Points(init.lines) == 1 by {
      PointsCons(init.lines[0], []);
      assert [init.lines[0]] + [] == init.lines;
    }
    assert Tidy(init);
    RunCounts(init, angle, order, ts);
    RunTidy(init, angle, order, ts);
  }

  /** On a string without `@`, the count of a symbol among the tokens is
      the count of that character in the string. */
  lemma {:induction false} CountPlain(s: string, c: char)
    requires '@' !in s
    ensures Count(Scan(s).0, c) == multiset(s)[c]
    decreases |s|
  {
    if s != [] {
      assert s[0] in s;
      ScanNext(s);
      assert NextToken(s) == Some(Symbol(s[0]));
      var rest := Scan(s[1..]).0;
      assert Scan(s).0 == [Symbol(s[0])] + rest;
      assert '@' !in s[1..] by {
        forall i | 0 <= i < |s[1..]| ensures s[1..][i] != '@' {
          assert s[1..][i] == s[i + 1];
          assert s[i + 1] in s;
        }
      }
      CountPlain(s[1..], c);
      CountCons(Symbol(s[0]), rest, c);
      MultisetCons(s, c);
    }
  }

  lemma CountCons(t: Token, ts: seq<Token>, c: char)
    ensures Count([t] + ts, c) == Tally(t, c) + Count(ts, c)
  {
    assert ([t] + ts)[0] == t && ([t] + ts)[1..] == ts;
  }

  lemma MultisetCons(s: string, c: char)
    requires s != []
    ensures multiset(s)[c] == (if s[0] == c then 1 else 0) + multiset(s[1..])[c]
  {
    assert s == [s[0]] + s[1..];
    assert multiset(s) == multiset([s[0]]) + multiset(s[1..]);
  }

  /** The tokens of `F+F+F+F`: four `F`, three `+` and nothing else. */
  lemma SquareTokens(c: char)
    ensures Count(Scan("F+F+F+F").0, c) == if c == 'F' then 4 else if c == '+' then 3 else 0
  {
    var str := "F+F+F+F";
    var pair := "F+";
    assert multiset(pair)[c] == (if c == 'F' then 1 else 0) + (if c == '+' then 1 else 0);
    assert str == pair + pair + pair + "F";
    assert '@' !in str;
    CountPlain(str, c);
  }

  /** Without `f`, `g`, `]`, `.` and `}`, a drawing is one line holding the
      start point and one point per `F`, and no polygon. */
  lemma OneLine(angle: Num, order: nat, ts: seq<Token>)
    requires Count(ts, '.') == 0 && Count(ts, '}') == 0 && Count(ts, ']') == 0
    requires Count(ts, 'f') == 0 && Count(ts, 'g') == 0
    ensures Draw(angle, order, ts).Ok?
    ensures |Draw(angle, order, ts).value.lines| == 1
    ensures |Draw(angle, order, ts).value.lines[0]| == 1 + Count(ts, 'F')
    ensures Draw(angle, order, ts).value.polygons == []
  {
    RunSafe(Initial(), angle, order, ts);
    DrawCounts(angle, order, ts);
    var lines := Draw(angle, order, ts).value.lines;
    PointsCons(lines[0], []);
    assert [lines[0]] + [] == lines;
  }

  /** `F+F+F+F` draws one line of five points and no polygon: `F` extends
      the newest line instead of starting a new one. */
  lemma SquareOutline(angle: Num, order: nat)
    ensures Render("F+F+F+F", angle, order).Ok?
    ensures |Render("F+F+F+F", angle, order).value.lines| == 1
    ensures |Render("F+F+F+F", angle, order).value.lines[0]| == 5
    ensures Render("F+F+F+F", angle, order).value.polygons == []
  {
    SquareTokens('F');
    SquareTokens('f');
    SquareTokens('g');
    SquareTokens(']');
    SquareTokens('}');
    SquareTokens('.');
    OneLine(angle, order, Scan("F+F+F+F").0);
  }

  /** `k` copies of `x`. */
  function Repeat<T>(x: T, k: nat): (r: seq<T>)
    ensures |r| == k && forall i :: 0 <= i < k ==> r[i] == x
  {
    if k == 0 then [] else [x] + Repeat(x, k - 1)
  }

  /** `k` dots add `k` copies of the current origin to the innermost open
      polygon, and change nothing else. */
  lemma {:induction false} RunDots(st: State, angle: Num, order: nat, k: nat)
    requires Wellformed(st) && st.editpolys != []
    ensures Run(st, angle, order, Repeat(Symbol('.'), k)) ==
      Ok(st.(editpolys := [st.editpolys[0] + Repeat(Origin(Top(st).frame), k)] + st.editpolys[1..]))
    decreases k
  {
    var p := Origin(Top(st).frame);
    if k == 0 {
      assert st.editpolys[0] + [] == st.editpolys[0];
      assert [st.editpolys[0]] + st.editpolys[1..] == st.editpolys;
    } else {
      var next := st.(editpolys := [st.editpolys[0] + [p]] + st.editpolys[1..]);
      assert Exec(st, angle, order, Symbol('.')) == Ok(next);
      assert Repeat(Symbol('.'), k)[1..] == Repeat(Symbol('.'), k - 1);
      RunDots(next, angle, order, k - 1);
      assert next.editpolys[1..] == st.editpolys[1..];
      assert st.editpolys[0] + [p] + Repeat(p, k - 1) == st.editpolys[0] + Repeat(p, k);
    }
  }

  /** `{`, `k` dots and `}` close one polygon of `k` + 1 points, all at the
      current origin, and leave the open polygons, the transforms and the
      lines as they were. */
  lemma DotsPolygon(st: State, angle: Num, order: nat, k: nat)
    requires Wellformed(st) && k >= 1
    ensures Run(st, angle, order, [Symbol('{')] + Repeat(Symbol('.'), k) + [Symbol('}')]) ==
      Ok(st.(polygons := st.polygons + [Repeat(Origin(Top(st).frame), k + 1)]))
  {
    var p := Origin(Top(st).frame);
    var started := st.(editpolys := [[]] + st.editpolys);
    assert Exec(st, angle, order, Symbol('{')) == Ok(started);
    RunAppend(st, angle, order, [Symbol('{')], Repeat(Symbol('.'), k));
    assert Run(st, angle, order, [Symbol('{')]) == Ok(started);
    RunDots(started, angle, order, k);
    var dotted := started.(editpolys := [[] + Repeat(p, k)] + st.editpolys);
    assert Run(st, angle, order, [Symbol('{')] + Repeat(Symbol('.'), k)) == Ok(dotted);
    RunAppend(st, angle, order, [Symbol('{')] + Repeat(Symbol('.'), k), [Symbol('}')]);
    var ring := Repeat(p, k);
    assert [] + ring == ring;
    assert Exec(dotted, angle, order, Symbol('}')) == Ok(st.(polygons := st.polygons + [CloseRing(ring)]));
    assert CloseRing(ring) == Repeat(p, k + 1);
  }

  /** `{}` closes a polygon without points: it becomes the lone `undefined`
      rather than an error. */
  lemma EmptyBraces(st: State, angle: Num, order: nat)
    requires Wellformed(st)
    ensures Run(st, angle, order, [Symbol('{'), Symbol('}')]) ==
      Ok(st.(polygons := st.polygons + [[Missing]]))
  {
    var started := st.(editpolys := [[]] + st.editpolys);
    assert Exec(st, angle, order, Symbol('{')) == Ok(started);
    assert [Symbol('{'), Symbol('}')] == [Symbol('{')] + [Symbol('}')];
    RunCons(st, angle, order, Symbol('{'), [Symbol('}')]);
    assert Exec(started, angle, order, Symbol('}')) == Ok(st.(polygons := st.polygons + [[Missing]]));
    RunCons(started, angle, order, Symbol('}'), []);
    assert [Symbol('}')] + [] == [Symbol('}')];
  }

  // ---------------------------------------------------------------------
  // `linedata` as it runs

  /** The closures of `linedata` over its four lists, with the angle and
      the order of the system they read. */
  class Turtle {
    var mat: seq<Entry>
    var editpolys: seq<seq<Point>>
    var lines: seq<seq<Point>>
    var polygons: seq<seq<Point>>
    const angle: Num
    const order: nat

    function Current(): State
      reads this
    {
      State(mat, editpolys, lines, polygons)
    }

    /** The lists as `linedata` sets them up: one identity transform with
        step 1, then `start_new_line`. */
    constructor (angle: Num, order: nat)
      ensures Current() == Initial()
      ensures this.angle == angle && this.order == order
    {
      this.angle := angle;
      this.order := order;
      mat := [Entry([], [])];
      editpolys := [];
      lines := [];
      polygons := [];
      new;
      NewLine();
    }

    /** `start_new_line`. */
    method NewLine()
      requires |mat| >= 1
      modifies this
      ensures lines == [[Origin(old(mat)[0].frame)]] + old(lines)
      ensures mat == old(mat) && editpolys == old(editpolys) && polygons == old(polygons)
    {
      lines := [[Origin(mat[0].frame)]] + lines;
    }

    /** `draw_line`. */
    method Segment()
      requires Wellformed(Current())
      modifies this
      ensures Current() == DrawLine(old(Current()))
    {
      lines := [lines[0] + [Ahead(mat[0].frame, mat[0].step)]] + lines[1..];
    }

    /** `just_move`. */
    method Advance()
      requires Wellformed(Current())
      modifies this
      ensures Current() == JustMove(old(Current()))
    {
      mat := [Entry(mat[0].frame + [Translate(mat[0].step)], mat[0].step)] + mat[1..];
    }

    /** `rotateDeg` on the top transform. */
    method TurnBy(degrees: Num)
      requires Wellformed(Current())
      modifies this
      ensures Current() == Turn(old(Current()), degrees)
    {
      mat := [Entry(mat[0].frame + [Rotate(degrees)], mat[0].step)] + mat[1..];
    }

    /** `add_poly_dot`: fails when no polygon is open. */
    method AddPolyDot() returns (err: Option<TurtleError>)
      requires Wellformed(Current())
      modifies this
      ensures err.None? <==> old(editpolys) != []
      ensures err.Some? ==> err.value == NoPolygonForDot && Current() == old(Current())
      ensures err.None? ==>
        (Current() == old(Current()).(editpolys := [old(editpolys)[0] + [Origin(old(mat)[0].frame)]] + old(editpolys)[1..]))
    {
      if editpolys == [] {
        return Some(NoPolygonForDot);
      }
      editpolys := [editpolys[0] + [Origin(mat[0].frame)]] + editpolys[1..];
      err := None;
    }

    /** `start_polygon`. */
    method StartPolygon()
      modifies this
      ensures Current() == old(Current()).(editpolys := [[]] + old(editpolys))
    {
      editpolys := [[]] + editpolys;
    }

    /** `close_polygon`: the innermost open polygon, closed with its own
        first point, joins the polygons. Fails when no polygon is open. */
    method ClosePolygon() returns (err: Option<TurtleError>)
      modifies this
      ensures err.None? <==> old(editpolys) != []
      ensures err.Some? ==> err.value == NoPolygonToClose && Current() == old(Current())
      ensures err.None? ==>
        Current() == old(Current()).(editpolys := old(editpolys)[1..], polygons := old(polygons) + [CloseRing(old(editpolys)[0])])
    {
      if editpolys == [] {
        return Some(NoPolygonToClose);
      }
      var polygon := editpolys[0];
      editpolys := editpolys[1..];
      polygon := polygon + [if polygon == [] then Missing else polygon[0]];
      polygons := polygons + [polygon];
      err := None;
    }

    /** One entry of `instructions`, or a directive. */
    method Execute(t: Token) returns (err: Option<TurtleError>)
      requires Wellformed(Current())
      modifies this
      ensures err.None? ==> Exec(old(Current()), angle, order, t) == Ok(Current())
      ensures err.Some? ==> Exec(old(Current()), angle, order, t) == Err(err.value)
    {
      err := None;
      match t
      case Directive(mode, digits, raised) =>
        mat := [Entry(mat[0].frame, mat[0].step + [FactorOf(mode, digits, raised, order)])] + mat[1..];
      case Symbol(c) =>
        if c == 'F' {
          Segment();
          Advance();
        } else if c == 'f' {
          Segment();
          NewLine();
        } else if c == 'g' {
          Advance();
          NewLine();
        } else if c == '+' {
          TurnBy(angle);
        } else if c == '-' {
          TurnBy(Negate(angle));
        } else if c == '|' {
          TurnBy(Finite(180.0));
        } else if c == '[' {
          mat := [mat[0]] + mat;
        } else if c == ']' {
          mat := mat[1..];
          if mat == [] {
            return Some(TransformStackEmpty);
          }
          NewLine();
        } else if c == '.' {
          err := AddPolyDot();
        } else if c == '{' {
          StartPolygon();
        } else if c == '}' {
          err := ClosePolygon();
        }
    }
  }

  /** A run of one token and then more. */
  lemma RunCons(st: State, angle: Num, order: nat, t: Token, ts: seq<Token>)
    requires Wellformed(st)
    ensures Exec(st, angle, order, t).Err? ==>
      Run(st, angle, order, [t] + ts) == Err(Exec(st, angle, order, t).error)
    ensures Exec(st, angle, order, t).Ok? ==>
      Run(st, angle, order, [t] + ts) == Run(Exec(st, angle, order, t).value, angle, order, ts)
  {
    assert ([t] + ts)[0] == t && ([t] + ts)[1..] == ts;
    ExecWellformed(st, angle, order, t);
  }

  /** The scan loop of `linedata`: the first token is cut off the string
      and executed, until the pattern no longer matches. */
  method Interpret(text: string, angle: Num, order: nat) returns (r: Result<Drawing, TurtleError>)
    ensures r == Render(text, angle, order)
  {
    var turtle := new Turtle(angle, order);
    var str := text;
    ghost var outcome := Run(Initial(), angle, order, Scan(text).0);
    while true
      invariant Wellformed(turtle.Current())
      invariant turtle.angle == angle && turtle.order == order
      invariant outcome == Run(turtle.Current(), angle, order, Scan(str).0)
      decreases |str|
    {
      ScanNext(str);
      var m := NextToken(str);
      if m.None? {
        break;
      }
      var t := m.value;
      var rest := str[|Spelling(t)|..];
      ghost var before := turtle.Current();
      RunCons(before, angle, order, t, Scan(rest).0);
      ExecWellformed(before, angle, order, t);
      var err := turtle.Execute(t);
      if err.Some? {
        return Err(err.value);
      }
      str := rest;
    }
    r := Ok(Drawing(turtle.lines, turtle.polygons));
  }

  /** `linedata(g, order)`: generation `order` of the cache, by default the
      system's own order, drawn with the system's angle. */
  method LineDataOf(g: Generations, order: Option<nat>) returns (r: Result<Drawing, TurtleError>)
    requires g.Valid()
    requires Generation(g.system, if order.Some? then order.value else g.system.order) != []
    modifies g
    ensures g.Valid()
    ensures old(g.gen) <= g.gen
    ensures var n := if order.Some? then order.value else g.system.order;
      |g.gen| == if n < |old(g.gen)| then |old(g.gen)| else n + 1
    ensures r == Render(Generation(g.system, if order.Some? then order.value else g.system.order),
                        g.system.angle, g.system.order)
  {
    var n := if order.Some? then order.value else g.system.order;
    var str := g.Get(n);
    r := Interpret(str, g.system.angle, g.system.order);
  }
}
