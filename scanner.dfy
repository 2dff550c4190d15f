/** The scan at the heart of `linedata`: the expanded string is read one
    token at a time, a token being either one character other than `@` or a
    step directive `@[IQ]?[0-9.]+^?`. The scan stops for good at the first
    `@` that does not begin a directive. */
module Scanner {
  import opened JsText

  /** How a directive's factor is finished: as it is, inverted (`I`) or
      square-rooted (`Q`). */
  datatype Mode = Plain | Invert | Root

  datatype Token =
    | Symbol(c: char)
    | Directive(mode: Mode, digits: string, raised: bool)

  function Mark(mode: Mode): string {
    match mode
    case Plain => []
    case Invert => "I"
    case Root => "Q"
  }

  function Caret(raised: bool): string {
    if raised then "^" else []
  }

  /** The text a token is read from. */
  function Spelling(t: Token): string {
    match t
    case Symbol(c) => [c]
    case Directive(mode, digits, raised) => "@" + Mark(mode) + digits + Caret(raised)
  }

  /** A token the scan can produce: a symbol other than `@`, or a directive
      with at least one digit or point. */
  predicate Readable(t: Token) {
    match t
    case Symbol(c) => c != '@'
    case Directive(_, digits, _) => digits != [] && AllNumeric(digits)
  }

  /** The mode letter, if any, right after an `@`. */
  function ModeAt(rest: string): Mode {
    if rest != [] && rest[0] == 'I' then Invert
    else if rest != [] && rest[0] == 'Q' then Root
    else Plain
  }

  /** The longest run of digits and points at the start of `s`: what
      `[0-9.]+` consumes. */
  function NumericRun(s: string): (r: string)
    ensures |r| <= |s| && s[..|r|] == r
    ensures AllNumeric(r)
    ensures |r| == |s| || !IsNumeric(s[|r|])
  {
    if s != [] && IsNumeric(s[0]) then [s[0]] + NumericRun(s[1..]) else []
  }

  /** The directive spelled by the text after an `@`, if it spells one. */
  function ReadDirective(rest: string): Option<Token> {
    var mode := ModeAt(rest);
    var body := rest[|Mark(mode)|..];
    var digits := NumericRun(body);
    if digits == [] then None
    else Some(Directive(mode, digits, |body| > |digits| && body[|digits|] == '^'))
  }

  /** The token at the start of `s`, if the pattern matches there. */
  function NextToken(s: string): Option<Token> {
    if s == [] then None
    else if s[0] != '@' then Some(Symbol(s[0]))
    else ReadDirective(s[1..])
  }

  /** A directive read after an `@` is a readable one, and the text starts
      with its spelling. */
  lemma DirectiveSpelled(rest: string)
    requires ReadDirective(rest).Some?
    ensures var t := ReadDirective(rest).value;
      && Readable(t) && t.Directive?
      && |Mark(t.mode) + t.digits + Caret(t.raised)| <= |rest|
      && rest == Mark(t.mode) + t.digits + Caret(t.raised) + rest[|Mark(t.mode) + t.digits + Caret(t.raised)|..]
  {
    var t := ReadDirective(rest).value;
    var m := Mark(t.mode);
    assert rest[..|m|] == m by {
      ModePrefix(rest);
    }
    var body := rest[|m|..];
    assert t.digits == NumericRun(body);
    var after := body[|t.digits|..];
    var c := Caret(t.raised);
    assert |c| <= |after| && after[..|c|] == c;
    Prefixes(rest, m, t.digits, c);
  }

  /** The mode letter read after an `@` is where the text says it is. */
  lemma ModePrefix(rest: string)
    ensures |Mark(ModeAt(rest))| <= |rest|
    ensures rest[..|Mark(ModeAt(rest))|] == Mark(ModeAt(rest))
  {
  }

  lemma Regroup(a: string, b: string, c: string, d: string)
    ensures a + (b + (c + d)) == (a + b + c) + d
    ensures a + (b + c + d) == a + b + c + d
  {
  }

  lemma Regroup5(a: string, b: string, c: string, d: string, e: string)
    ensures (a + b + c + d) + e == a + (b + (c + (d + e)))
  {
  }

  /** Three pieces found one after the other at the start of a text make
      up its start. */
  lemma Prefixes(s: string, a: string, b: string, c: string)
    requires |a| <= |s| && s[..|a|] == a
    requires |b| <= |s[|a|..]| && s[|a|..][..|b|] == b
    requires |c| <= |s[|a|..][|b|..]| && s[|a|..][|b|..][..|c|] == c
    ensures |a + b + c| <= |s|
    ensures s == a + b + c + s[|a + b + c|..]
  {
    var n := |a + b + c|;
    forall i | 0 <= i < |s| ensures s[i] == (a + b + c + s[n..])[i] {
      if i < |a| {
        assert s[i] == s[..|a|][i];
      } else if i < |a| + |b| {
        assert s[i] == s[|a|..][..|b|][i - |a|];
      } else if i < n {
        assert s[i] == s[|a|..][|b|..][..|c|][i - |a| - |b|];
      }
    }
  }

  /** The token read from `s` is readable and `s` starts with its spelling. */
  lemma NextTokenSpelled(s: string)
    requires NextToken(s).Some?
    ensures Readable(NextToken(s).value)
    ensures |Spelling(NextToken(s).value)| <= |s|
    ensures s == Spelling(NextToken(s).value) + s[|Spelling(NextToken(s).value)|..]
  {
    if s[0] == '@' {
      var rest := s[1..];
      DirectiveSpelled(rest);
      var t := ReadDirective(rest).value;
      var w := Mark(t.mode) + t.digits + Caret(t.raised);
      assert Spelling(t) == [s[0]] + w by {
        Regroup("@", Mark(t.mode), t.digits, Caret(t.raised));
      }
      PrefixAfterFirst(s, Spelling(t), w);
    } else {
      PrefixAfterFirst(s, [s[0]], []);
    }
  }

  /** A text whose first character is followed by `w` starts with that
      character and `w`. */
  lemma PrefixAfterFirst(s: string, p: string, w: string)
    requires s != [] && |w| <= |s| - 1 && s[1..] == w + s[1..][|w|..]
    requires p == [s[0]] + w
    ensures |p| <= |s| && s == p + s[|p|..]
  {
    assert s == [s[0]] + s[1..];
    assert s[|p|..] == s[1..][|w|..];
  }

  /** The pattern fails exactly on the empty text and on an `@` that is
      followed neither by a digit or point nor by `I` or `Q` and then a
      digit or point. */
  lemma NextTokenFails(s: string)
    ensures NextToken(s).None? <==> s == [] || (s[0] == '@' && NoDigitsAfterMark(s[1..]))
  {
  }

  /** After an `@`, neither a digit or point, nor `I` or `Q` followed by a
      digit or point: the directive pattern cannot match. */
  predicate NoDigitsAfterMark(rest: string) {
    && (rest == [] || !IsNumeric(rest[0]))
    && (|rest| >= 2 && (rest[0] == 'I' || rest[0] == 'Q') ==> !IsNumeric(rest[1]))
  }

  /** What the scan reads from `s`: the tokens in order, and the text left
      where it stopped (empty, or starting with an `@` that begins no
      directive). */
  function Scan(s: string): (r: (seq<Token>, string))
    ensures forall i :: 0 <= i < |r.0| ==> Readable(r.0[i])
    ensures Spell(r.0) + r.1 == s
    ensures NextToken(r.1) == None
    decreases |s|
  {
    match NextToken(s)
    case None => ([], s)
    case Some(t) =>
      NextTokenSpelled(s);
      var more := Scan(s[|Spelling(t)|..]);
      ScanStep(s, t, more.0, more.1);
      ([t] + more.0, more.1)
  }

  /** One token read, then the rest of the scan, spell the whole text. */
  lemma ScanStep(s: string, t: Token, ts: seq<Token>, rest: string)
    requires |Spelling(t)| <= |s| && s == Spelling(t) + s[|Spelling(t)|..]
    requires Spell(ts) + rest == s[|Spelling(t)|..]
    ensures Spell([t] + ts) + rest == s
  {
    SpellCons(t, ts);
    Rejoin(s, Spelling(t), Spell(ts), rest);
  }

  /** A text that starts with `a` and goes on with `b + c` is `a + b + c`. */
  lemma Rejoin(s: string, a: string, b: string, c: string)
    requires |a| <= |s| && s == a + s[|a|..]
    requires b + c == s[|a|..]
    ensures a + b + c == s
  {
    assert a + b + c == a + (b + c);
  }

  /** The text a run of tokens is read from. */
  function Spell(ts: seq<Token>): string {
    if ts == [] then [] else Spelling(ts[0]) + Spell(ts[1..])
  }

  lemma SpellCons(t: Token, ts: seq<Token>)
    ensures Spell([t] + ts) == Spelling(t) + Spell(ts)
  {
    assert ([t] + ts)[0] == t && ([t] + ts)[1..] == ts;
  }

  // ---------------------------------------------------------------------
  // Reading back

  lemma {:induction false} NumericRunStops(a: string, b: string)
    requires AllNumeric(a)
    requires b == [] || !IsNumeric(b[0])
    ensures NumericRun(a + b) == a
  {
    if a != [] {
      assert (a + b)[1..] == a[1..] + b;
      NumericRunStops(a[1..], b);
      assert [a[0]] + a[1..] == a;
    } else {
      assert a + b == b;
    }
  }

  /** The mode letter before a digit or point reads back as that mode. */
  lemma ModeReadBack(mode: Mode, x: string)
    requires x != [] && IsNumeric(x[0])
    ensures ModeAt(Mark(mode) + x) == mode
    ensures (Mark(mode) + x)[|Mark(mode)|..] == x
  {
  }

  /** A directive's text after the `@`, followed by text that cannot extend
      it, reads back as that directive. */
  lemma ReadDirectiveBack(mode: Mode, digits: string, raised: bool, rest: string)
    requires digits != [] && AllNumeric(digits)
    requires !raised ==> rest == [] || (!IsNumeric(rest[0]) && rest[0] != '^')
    ensures ReadDirective(Mark(mode) + (digits + (Caret(raised) + rest))) == Some(Directive(mode, digits, raised))
  {
    var after := Caret(raised) + rest;
    var body := digits + after;
    ModeReadBack(mode, body);
    NumericRunStops(digits, after);
    if raised {
      assert body[|digits|] == '^';
    } else {
      assert after == rest;
    }
  }

  /** A readable token followed by text that cannot extend it reads back as
      that token. */
  lemma ReadBack(t: Token, rest: string)
    requires Readable(t)
    requires t.Directive? && !t.raised ==> rest == [] || (!IsNumeric(rest[0]) && rest[0] != '^')
    ensures NextToken(Spelling(t) + rest) == Some(t)
  {
    var s := Spelling(t) + rest;
    if t.Directive? {
      var tail := Mark(t.mode) + (t.digits + (Caret(t.raised) + rest));
      Regroup5("@", Mark(t.mode), t.digits, Caret(t.raised), rest);
      assert s[1..] == tail;
      ReadDirectiveBack(t.mode, t.digits, t.raised, rest);
    } else {
      assert s[0] == t.c;
    }
  }

  /** Spelling distributes over concatenation. */
  lemma {:induction false} SpellAppend(a: seq<Token>, b: seq<Token>)
    ensures Spell(a + b) == Spell(a) + Spell(b)
    decreases |a|
  {
    if a != [] {
      assert (a + b)[0] == a[0] && (a + b)[1..] == a[1..] + b;
      SpellAppend(a[1..], b);
    } else {
      assert a + b == b;
    }
  }

  /** A string without `@` is read character by character, to the end. */
  lemma {:induction false} ScanPlain(s: string)
    requires '@' !in s
    ensures Scan(s).0 == seq(|s|, i requires 0 <= i < |s| => Symbol(s[i]))
    ensures Scan(s).1 == []
    decreases |s|
  {
    if s != [] {
      assert s[0] in s;
      assert '@' !in s[1..] by {
        forall i | 0 <= i < |s[1..]| ensures s[1..][i] != '@' {
          assert s[1..][i] == s[i + 1];
        }
      }
      ScanPlain(s[1..]);
    }
  }

  /** A token that ends before the end of the text is not changed by text
      appended after it. */
  lemma NextTokenExtends(s: string, rest: string)
    requires NextToken(s).Some? && |Spelling(NextToken(s).value)| < |s|
    ensures NextToken(s + rest) == NextToken(s)
  {
    var t := NextToken(s).value;
    NextTokenSpelled(s);
    var n := |Spelling(t)|;
    if t.Directive? && !t.raised {
      DirectiveEnds(s);
    }
    ReadBack(t, s[n..] + rest);
    AppendAfter(s, Spelling(t), rest);
  }

  /** A directive without `^` that ends before the text does is followed by
      a character that is neither a digit, a point nor `^`. */
  lemma DirectiveEnds(s: string)
    requires s != [] && s[0] == '@' && ReadDirective(s[1..]).Some?
    requires !ReadDirective(s[1..]).value.raised
    requires |Spelling(ReadDirective(s[1..]).value)| < |s|
    ensures var n := |Spelling(ReadDirective(s[1..]).value)|;
      !IsNumeric(s[n]) && s[n] != '^'
  {
    var r := s[1..];
    var t := ReadDirective(r).value;
    var body := r[|Mark(t.mode)|..];
    assert |Spelling(t)| == 1 + |Mark(t.mode)| + |t.digits|;
    assert |body| > |t.digits|;
    assert s[|Spelling(t)|] == body[|t.digits|];
  }

  /** Text appended to `s` comes after whatever `s` starts with. */
  lemma AppendAfter(s: string, p: string, rest: string)
    requires |p| <= |s| && s == p + s[|p|..]
    ensures s + rest == p + (s[|p|..] + rest)
  {
  }

  /** An `@` whose next characters already rule out a directive. */
  predicate Blocked(r: string) {
    && |r| >= 2 && r[0] == '@' && !IsNumeric(r[1])
    && (r[1] == 'I' || r[1] == 'Q' ==> |r| >= 3 && !IsNumeric(r[2]))
  }

  /** The scan stops for good: nothing after a blocked `@` is read, whatever
      it holds, even well-formed tokens. */
  lemma ScanStops(r: string, more: string)
    requires Blocked(r)
    ensures Scan(r + more) == ([], r + more)
  {
    var s := r + more;
    assert s[0] == '@' && s[1] == r[1];
    if r[1] == 'I' || r[1] == 'Q' {
      assert s[2] == r[2];
    }
    NextTokenFails(s);
  }

  /** The scan reads the first token off `s` and carries on with what
      follows its spelling; it reads nothing when no token is there. */
  lemma ScanNext(s: string)
    ensures NextToken(s).None? ==> Scan(s) == ([], s)
    ensures NextToken(s).Some? ==>
      var t := NextToken(s).value;
      && 0 < |Spelling(t)| <= |s|
      && Scan(s).0 == [t] + Scan(s[|Spelling(t)|..]).0
  {
    if NextToken(s).Some? {
      NextTokenSpelled(s);
    }
  }

  /** A readable token followed by text that cannot extend it is the first
      token the scan reads, and the scan goes on after it. */
  lemma ScanToken(t: Token, rest: string)
    requires Readable(t)
    requires t.Directive? && !t.raised ==> rest == [] || (!IsNumeric(rest[0]) && rest[0] != '^')
    ensures Scan(Spelling(t) + rest) == ([t] + Scan(rest).0, Scan(rest).1)
  {
    var s := Spelling(t) + rest;
    ReadBack(t, rest);
    NextTokenSpelled(s);
    assert s[|Spelling(t)|..] == rest;
  }

  /** A stray `@` before a letter ends the scan at once. */
  lemma SampleStop()
    ensures Scan("@x-F") == ([], "@x-F")
  {
    var stop := "@x-F";
    assert Blocked(stop);
    ScanStops(stop, []);
    assert stop + [] == stop;
  }

  /** A directive without `^` is not extended by the text after it: that
      text starts with neither a digit, a point nor `^`. */
  predicate Separate(t: Token, next: string) {
    t.Directive? && !t.raised ==> next == [] || (!IsNumeric(next[0]) && next[0] != '^')
  }

  /** Tokens the scan can read back one by one. */
  predicate Separated(ts: seq<Token>) {
    && (forall i :: 0 <= i < |ts| ==> Readable(ts[i]))
    && (forall i :: 0 <= i < |ts| - 1 ==> Separate(ts[i], Spelling(ts[i + 1])))
  }

  /** The round trip: the text spelled by readable, separated tokens, ended
      by nothing or by a blocked `@`, scans back to those tokens. */
  lemma {:induction false} ScanSpell(ts: seq<Token>, stop: string)
    requires Separated(ts)
    requires stop == [] || Blocked(stop)
    ensures Scan(Spell(ts) + stop) == (ts, stop)
    decreases |ts|
  {
    if ts == [] {
      assert Spell(ts) + stop == stop;
      if stop != [] {
        ScanStops(stop, []);
        assert stop + [] == stop;
      }
    } else {
      var rest := Spell(ts[1..]) + stop;
      assert Separated(ts[1..]) by {
        forall i | 0 <= i < |ts[1..]| - 1
          ensures Separate(ts[1..][i], Spelling(ts[1..][i + 1]))
        {
          assert ts[1..][i] == ts[i + 1] && ts[1..][i + 1] == ts[i + 2];
        }
      }
      ScanSpell(ts[1..], stop);
      assert Separate(ts[0], rest) by {
        SeparateNext(ts, stop);
      }
      ScanToken(ts[0], rest);
      SpellCons(ts[0], ts[1..]);
      assert [ts[0]] + ts[1..] == ts;
      assert Spell(ts) + stop == Spelling(ts[0]) + rest;
    }
  }

  /** What follows the first token of a separated run starts like the next
      token, or like the stop. */
  lemma SeparateNext(ts: seq<Token>, stop: string)
    requires ts != [] && Separated(ts)
    requires stop == [] || Blocked(stop)
    ensures Separate(ts[0], Spell(ts[1..]) + stop)
  {
    if |ts| > 1 {
      var next := Spelling(ts[1]);
      assert next != [] && Separate(ts[0], next);
      SpellCons(ts[1], ts[2..]);
      assert ts[1..] == [ts[1]] + ts[2..];
      assert (Spell(ts[1..]) + stop)[0] == next[0];
    } else {
      assert ts[1..] == [];
      assert Spell(ts[1..]) + stop == stop;
    }
  }

  /** A sample: a symbol, a raised square-root directive, another symbol,
      then a stray `@` that ends the scan. */
  lemma SampleScan()
    ensures Scan("F@Q2^+@x-F") == ([Symbol('F'), Directive(Root, "2", true), Symbol('+')], "@x-F")
  {
    var d := Directive(Root, "2", true);
    var ts := [Symbol('F'), d, Symbol('+')];
    var stop := "@x-F";
    assert Readable(d) && Blocked(stop);
    assert Separated(ts);
    ScanSpell(ts, stop);
    assert Spell(ts) == "F@Q2^+" by {
      SpellCons(Symbol('F'), [d, Symbol('+')]);
      SpellCons(d, [Symbol('+')]);
      SpellCons(Symbol('+'), []);
      assert [Symbol('F')] + [d, Symbol('+')] == ts;
      assert [d] + [Symbol('+')] == [d, Symbol('+')];
      assert [Symbol('+')] + [] == [Symbol('+')];
      assert Spelling(d) == "@Q2^";
    }
    assert "F@Q2^+" + stop == "F@Q2^+@x-F";
  }
}
