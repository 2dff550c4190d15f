/** The grammar parser: a text block of parameter lines (`key: value`) and
    rule lines (`X -> body` or `X = body`) becomes a `System`. */
module Grammar {
  import opened JsText

  /** The parameters the parser knows. */
  datatype ParamName = Angle | Order | Axiom | Stroke | Fill | Bg | Animate | Colorful

  function Known(key: string): Option<ParamName> {
    if key == "angle" then Some(Angle)
    else if key == "order" then Some(Order)
    else if key == "axiom" then Some(Axiom)
    else if key == "animate" then Some(Animate)
    else if key == "colorful" then Some(Colorful)
    else if key == "stroke" then Some(Stroke)
    else if key == "fill" then Some(Fill)
    else if key == "bg" then Some(Bg)
    else None
  }

  /** The pattern a value must match: `^[0-9\.]+$` for `angle`, `^[0-9]+$`
      for `order`, anything for the others. */
  predicate Accepts(name: ParamName, v: string) {
    match name
    case Angle => v != [] && AllNumeric(v)
    case Order => v != [] && AllDigits(v)
    case _ => true
  }

  datatype ParseError =
    | UnknownKey(key: string)
    | InvalidParameter(key: string)
    | NotParseable(line: string)

  /** The text thrown for each error. */
  function Message(e: ParseError): string {
    match e
    case UnknownKey(key) => "Err: key not known: " + key
    case InvalidParameter(key) => "Parameter invalid: " + key
    case NotParseable(line) => "Err: line not parseable: " + line
  }

  /** The system while lines are still being read: `order` is absent until
      an `order` line sets it; the flags are false until set. */
  datatype Draft = Draft(
    text: string,
    axiom: string,
    angle: Num,
    order: Option<nat>,
    fill: string,
    stroke: string,
    bg: string,
    animate: bool,
    colorful: bool,
    rules: map<char, string>)

  /** A parsed system. Rule lookup goes to `rules` first and to the
      self-mapping `constants` second. */
  datatype System = System(
    text: string,
    axiom: string,
    angle: Num,
    order: nat,
    fill: string,
    stroke: string,
    bg: string,
    animate: bool,
    colorful: bool,
    rules: map<char, string>,
    constants: set<char>)

  function Defaults(text: string): Draft {
    Draft(text, "X", Finite(90.0), None, "#f6f6f6", "black", "#f9f9f9", false, false, map[])
  }

  // ---------------------------------------------------------------------
  // The shape of a line

  /** The regular expression `^([a-z]+)(?:[ ]*:[ ]*(.*))?$`: the key, and
      the value when a colon follows it. */
  function MatchParam(line: string): Option<(string, Option<string>)> {
    var key := TakeWhile(line, IsLower);
    var rest := line[|key|..];
    if key == [] then None
    else if rest == [] then Some((key, None))
    else
      var afterKey := DropBlanks(rest);
      if afterKey != [] && afterKey[0] == ':' && NoLineTerminator(afterKey[1..])
      then Some((key, Some(DropBlanks(afterKey[1..]))))
      else None
  }

  /** The regular expression `^([A-Z])[ ]*(?:->|=)[ ]*(.*)$`: the symbol and
      its replacement. */
  function MatchRule(line: string): Option<(char, string)> {
    if line == [] || !IsUpper(line[0]) then None
    else
      var rest := DropBlanks(line[1..]);
      var body :=
        if |rest| >= 2 && rest[..2] == "->" then Some(rest[2..])
        else if rest != [] && rest[0] == '=' then Some(rest[1..])
        else None;
      if body.Some? && NoLineTerminator(body.value) then Some((line[0], DropBlanks(body.value)))
      else None
  }

  /** What a trimmed line is. A parameter line carries its key, the known
      parameter that key names (if any) and its value (if any). */
  datatype Shape =
    | Blank
    | Comment
    | Param(key: string, name: Option<ParamName>, value: Option<string>)
    | Rule(symbol: char, body: string)
    | Unparseable(line: string)

  /** The shape of a trimmed line, tried in the parser's order: empty,
      comment, parameter, rule. */
  function ShapeOf(line: string): Shape {
    if line == [] then Blank
    else if |line| >= 2 && line[..2] == "//" then Comment
    else match MatchParam(line)
      case Some((key, value)) => Param(key, Known(key), value)
      case None =>
        match MatchRule(line)
        case Some((x, body)) => Rule(x, body)
        case None => Unparseable(line)
  }

  /** Every line of the text, trimmed and classified. */
  function Shapes(lines: seq<string>): (shapes: seq<Shape>)
    ensures |shapes| == |lines|
  {
    seq(|lines|, i requires 0 <= i < |lines| => ShapeOf(Trim(lines[i])))
  }

  /** A value after a single blank, with no blank of its own in front and
      no line terminator, reads back as itself. */
  lemma BlankThenValue(v: string)
    requires NoLineTerminator(v) && (v == [] || v[0] != ' ')
    ensures NoLineTerminator(" " + v)
    ensures DropBlanks(" " + v) == v
  {
    var tail := " " + v;
    forall i | 0 <= i < |tail| ensures !IsLineTerminator(tail[i]) {
      if i > 0 { assert tail[i] == v[i - 1]; }
    }
    TakeWhileStops(" ", v, IsBlank);
  }

  /** `key: value` matches the parameter pattern with that key and value. */
  lemma MatchParamLine(key: string, v: string)
    requires key != [] && forall i :: 0 <= i < |key| ==> IsLower(key[i])
    requires NoLineTerminator(v) && (v == [] || v[0] != ' ')
    ensures MatchParam(key + ": " + v) == Some((key, Some(v)))
  {
    var rest := ": " + v;
    var line := key + rest;
    assert line == key + ": " + v;
    TakeWhileStops(key, rest, IsLower);
    assert line[|key|..] == rest;
    ColonThenValue(v);
  }

  /** After the key: the colon, then a blank, then the value. */
  lemma ColonThenValue(v: string)
    requires NoLineTerminator(v) && (v == [] || v[0] != ' ')
    ensures var rest := ": " + v;
      && DropBlanks(rest) == rest && rest[0] == ':'
      && NoLineTerminator(rest[1..]) && DropBlanks(rest[1..]) == v
  {
    var rest := ": " + v;
    assert TakeWhile(rest, IsBlank) == [];
    assert rest[1..] == " " + v;
    BlankThenValue(v);
  }

  /** A parameter line written `key: value` reads back as that key and value. */
  lemma ParamLineShape(key: string, v: string)
    requires key != [] && forall i :: 0 <= i < |key| ==> IsLower(key[i])
    requires NoLineTerminator(v) && (v == [] || v[0] != ' ')
    ensures ShapeOf(key + ": " + v) == Param(key, Known(key), Some(v))
  {
    MatchParamLine(key, v);
    var line := key + ": " + v;
    assert line[0] == key[0] && line[0] != '/';
    assert !(|line| >= 2 && line[..2] == "//") by {
      if |line| >= 2 {
        assert line[..2][0] == line[0];
      }
    }
  }

  /** `X -> body` matches the rule pattern with that symbol and body. */
  lemma MatchRuleLine(x: char, body: string)
    requires IsUpper(x)
    requires NoLineTerminator(body) && (body == [] || body[0] != ' ')
    ensures MatchRule([x] + " -> " + body) == Some((x, body))
  {
    var arrow := "-> " + body;
    var line := [x] + " " + arrow;
    assert line == [x] + " -> " + body;
    assert line[1..] == " " + arrow;
    TakeWhileStops(" ", arrow, IsBlank);
    assert DropBlanks(line[1..]) == arrow;
    assert arrow[..2] == "->";
    assert arrow[2..] == " " + body;
    BlankThenValue(body);
  }

  /** A rule line written `X -> body` reads back as that symbol and body. */
  lemma RuleLineShape(x: char, body: string)
    requires IsUpper(x)
    requires NoLineTerminator(body) && (body == [] || body[0] != ' ')
    ensures ShapeOf([x] + " -> " + body) == Rule(x, body)
  {
    var line := [x] + " -> " + body;
    assert line[0] == x;
    UpperStart(line);
    MatchRuleLine(x, body);
  }

  /** A line starting with a capital is neither a comment nor a parameter. */
  lemma UpperStart(line: string)
    requires line != [] && IsUpper(line[0])
    ensures !(|line| >= 2 && line[..2] == "//")
    ensures MatchParam(line) == None
  {
    assert TakeWhile(line, IsLower) == [];
    if |line| >= 2 {
      assert line[..2][0] == line[0];
    }
  }

  // ---------------------------------------------------------------------
  // Reading one line

  /** The value of a parameter field, whatever its type. */
  datatype Setting = Text(s: string) | Number(n: Num) | Count(c: Option<nat>) | Switch(b: bool)

  /** The field of `d` that parameter `name` sets. */
  function FieldOf(d: Draft, name: ParamName): Setting {
    match name
    case Angle => Number(d.angle)
    case Order => Count(d.order)
    case Axiom => Text(d.axiom)
    case Stroke => Text(d.stroke)
    case Fill => Text(d.fill)
    case Bg => Text(d.bg)
    case Animate => Switch(d.animate)
    case Colorful => Switch(d.colorful)
  }

  /** The coerced value of an accepted value: parseFloat for `angle`,
      parseInt for `order`, true for the flags, the text itself otherwise. */
  function Coerced(name: ParamName, v: string): Setting
    requires Accepts(name, v)
  {
    match name
    case Angle => Number(ParseFloat(v))
    case Order => Count(Some(ParseInt(v)))
    case Animate => Switch(true)
    case Colorful => Switch(true)
    case _ => Text(v)
  }

  /** Assigns a checked value to the field its parameter names. Only that
      field changes. */
  function SetParam(d: Draft, name: ParamName, v: string): (r: Draft)
    requires Accepts(name, v)
    ensures FieldOf(r, name) == Coerced(name, v)
    ensures forall other :: other != name ==> FieldOf(r, other) == FieldOf(d, other)
    ensures r.rules == d.rules && r.text == d.text
  {
    match name
    case Angle => d.(angle := ParseFloat(v))
    case Order => d.(order := Some(ParseInt(v)))
    case Axiom => d.(axiom := v)
    case Stroke => d.(stroke := v)
    case Fill => d.(fill := v)
    case Bg => d.(bg := v)
    case Animate => d.(animate := true)
    case Colorful => d.(colorful := true)
  }

  /** One line of the `forEach`, once trimmed and classified: skipped,
      stored or rejected. */
  function ApplyShape(d: Draft, shape: Shape): Result<Draft, ParseError> {
    match shape
    case Blank => Ok(d)
    case Comment => Ok(d)
    case Param(key, name, value) =>
      var v := if value.Some? then value.value else "";
      if name.None? then Err(UnknownKey(key))
      else if !Accepts(name.value, v) then Err(InvalidParameter(key))
      else Ok(SetParam(d, name.value, v))
    case Rule(x, body) => Ok(d.(rules := d.rules[x := body]))
    case Unparseable(line) => Err(NotParseable(line))
  }

  /** The lines in order; the first error ends the parse. */
  function ParseLines(d: Draft, shapes: seq<Shape>): Result<Draft, ParseError>
    decreases |shapes|
  {
    if shapes == [] then Ok(d)
    else match ApplyShape(d, shapes[0])
      case Err(e) => Err(e)
      case Ok(d') => ParseLines(d', shapes[1..])
  }

  /** The characters of rule bodies, among the rules whose symbols are in
      `keys`, that are not themselves rule symbols. */
  function ConstantsFrom(rules: map<char, string>, keys: set<char>): set<char> {
    set k, c | k in keys && k in rules && c in rules[k] && c !in rules :: c
  }

  function ConstantsOf(rules: map<char, string>): set<char> {
    ConstantsFrom(rules, rules.Keys)
  }

  /** The system returned once every line is read: `order` becomes 2 when it
      is absent or 0. */
  function Complete(d: Draft, constants: set<char>): System {
    var order := if d.order == None || d.order == Some(0) then 2 else d.order.value;
    System(d.text, d.axiom, d.angle, order, d.fill, d.stroke, d.bg, d.animate, d.colorful,
           d.rules, constants)
  }

  /** `parse(text)` as a whole. */
  function ParseText(text: string): Result<System, ParseError> {
    match ParseLines(Defaults(text), Shapes(SplitLines(text)))
    case Err(e) => Err(e)
    case Ok(d) => Ok(Complete(d, ConstantsOf(d.rules)))
  }

  // ---------------------------------------------------------------------
  // The parser as it runs

  /** The second `forEach`: every rule-body character that is not a rule
      symbol becomes a constant. */
  method CollectConstants(rules: map<char, string>) returns (constants: set<char>)
    ensures constants == ConstantsOf(rules)
  {
    constants := {};
    var done: set<char> := {};
    var pending := rules.Keys;
    while pending != {}
      invariant done <= rules.Keys && pending == rules.Keys - done
      invariant constants == ConstantsFrom(rules, done)
      decreases pending
    {
      var k :| k in pending;
      var body := rules[k];
      var j := 0;
      while j < |body|
        invariant 0 <= j <= |body|
        invariant constants == ConstantsFrom(rules, done) + (set c | c in body[..j] && c !in rules)
      {
        if body[j] !in rules {
          constants := constants + {body[j]};
        }
        assert body[..j + 1] == body[..j] + [body[j]];
        j := j + 1;
      }
      assert body[..j] == body;
      assert ConstantsFrom(rules, done + {k})
          == ConstantsFrom(rules, done) + (set c | c in body && c !in rules);
      done := done + {k};
      pending := pending - {k};
    }
    assert done == rules.Keys;
  }

  /** One more line read by the loop of `ReadLines`. */
  lemma ParseLinesNext(d: Draft, shapes: seq<Shape>, i: nat)
    requires i < |shapes|
    ensures ApplyShape(d, shapes[i]).Err? ==> ParseLines(d, shapes[i..]) == Err(ApplyShape(d, shapes[i]).error)
    ensures ApplyShape(d, shapes[i]).Ok? ==>
      ParseLines(d, shapes[i..]) == ParseLines(ApplyShape(d, shapes[i]).value, shapes[i + 1..])
  {
    assert shapes[i..][0] == shapes[i] && shapes[i..][1..] == shapes[i + 1..];
  }

  /** The first `forEach`: each line, trimmed, updates the draft in turn,
      and the first error is thrown. */
  method ReadLines(start: Draft, lines: seq<string>) returns (r: Result<Draft, ParseError>)
    ensures r == ParseLines(start, Shapes(lines))
  {
    var d := start;
    var i := 0;
    while i < |lines|
      invariant 0 <= i <= |lines|
      invariant ParseLines(start, Shapes(lines)) == ParseLines(d, Shapes(lines)[i..])
    {
      var shape := ShapeOf(Trim(lines[i]));
      assert shape == Shapes(lines)[i];
      var next := ApplyShape(d, shape);
      ParseLinesNext(d, Shapes(lines), i);
      if next.Err? {
        return Err(next.error);
      }
      d := next.value;
      i := i + 1;
    }
    assert Shapes(lines)[i..] == [];
    r := Ok(d);
  }

  method Parse(text: string) returns (r: Result<System, ParseError>)
    ensures r == ParseText(text)
  {
    var read := ReadLines(Defaults(text), SplitLines(text));
    if read.Err? {
      return Err(read.error);
    }
    var constants := CollectConstants(read.value.rules);
    r := Ok(Complete(read.value, constants));
  }

  // ---------------------------------------------------------------------
  // What a parse promises

  /** The value of the last parameter line for `name`, an absent value read
      as the empty string. */
  function LastValue(shapes: seq<Shape>, name: ParamName): Option<string>
    decreases |shapes|
  {
    if shapes == [] then None
    else
      var later := LastValue(shapes[1..], name);
      if later.Some? then later
      else match shapes[0]
        case Param(_, n, value) =>
          if n == Some(name) then Some(if value.Some? then value.value else "") else None
        case _ => None
  }

  /** The body of the last rule line for `x`. */
  function LastRule(shapes: seq<Shape>, x: char): Option<string>
    decreases |shapes|
  {
    if shapes == [] then None
    else
      var later := LastRule(shapes[1..], x);
      if later.Some? then later
      else match shapes[0]
        case Rule(y, body) => if y == x then Some(body) else None
        case _ => None
  }

  /** Each parameter ends with the value of its last line, or keeps the
      value it started with when no line sets it. */
  lemma {:induction false} LastSettingWins(d: Draft, shapes: seq<Shape>, name: ParamName)
    requires ParseLines(d, shapes).Ok?
    ensures LastValue(shapes, name).Some? ==> Accepts(name, LastValue(shapes, name).value)
    ensures FieldOf(ParseLines(d, shapes).value, name) ==
      match LastValue(shapes, name)
      case None => FieldOf(d, name)
      case Some(v) => Coerced(name, v)
    decreases |shapes|
  {
    if shapes != [] {
      var d1 := ApplyShape(d, shapes[0]).value;
      LastSettingWins(d1, shapes[1..], name);
    }
  }

  /** A symbol's rule is the body of its last rule line; a symbol without a
      rule line keeps what it started with. */
  lemma {:induction false} LastRuleWins(d: Draft, shapes: seq<Shape>, x: char)
    requires ParseLines(d, shapes).Ok?
    ensures var rules := ParseLines(d, shapes).value.rules;
      match LastRule(shapes, x)
      case Some(body) => x in rules && rules[x] == body
      case None => (x in rules <==> x in d.rules) && (x in d.rules ==> rules[x] == d.rules[x])
    decreases |shapes|
  {
    if shapes != [] {
      var d1 := ApplyShape(d, shapes[0]).value;
      LastRuleWins(d1, shapes[1..], x);
    }
  }

  /** Reading two runs of lines is reading the first and then the second
      from where the first left off. */
  lemma {:induction false} ParseLinesAppend(d: Draft, a: seq<Shape>, b: seq<Shape>)
    ensures ParseLines(d, a + b) ==
      match ParseLines(d, a)
      case Err(e) => Err(e)
      case Ok(d') => ParseLines(d', b)
    decreases |a|
  {
    if a == [] {
      assert a + b == b;
    } else {
      assert (a + b)[0] == a[0] && (a + b)[1..] == a[1..] + b;
      if ApplyShape(d, a[0]).Ok? {
        ParseLinesAppend(ApplyShape(d, a[0]).value, a[1..], b);
      }
    }
  }

  /** Blank lines and `//` lines change nothing, wherever they stand. */
  lemma SkippedLine(d: Draft, a: seq<Shape>, skipped: Shape, b: seq<Shape>)
    requires skipped == Blank || skipped == Comment
    ensures ParseLines(d, a + [skipped] + b) == ParseLines(d, a + b)
  {
    ParseLinesAppend(d, a, [skipped] + b);
    ParseLinesAppend(d, a, b);
    assert a + [skipped] + b == a + ([skipped] + b);
    assert ([skipped] + b)[1..] == b;
  }

  /** A line that trims to nothing or starts with `//` is skipped. */
  lemma SkippedShapes(raw: string)
    requires Trim(raw) == [] || (|Trim(raw)| >= 2 && Trim(raw)[..2] == "//")
    ensures ShapeOf(Trim(raw)) == Blank || ShapeOf(Trim(raw)) == Comment
  {
  }

  lemma {:induction false} TextKept(d: Draft, shapes: seq<Shape>)
    requires ParseLines(d, shapes).Ok?
    ensures ParseLines(d, shapes).value.text == d.text
    decreases |shapes|
  {
    if shapes != [] {
      TextKept(ApplyShape(d, shapes[0]).value, shapes[1..]);
    }
  }

  /** The settings a run of lines leaves, starting from the defaults. */
  lemma {:induction false} ReadSettings(text: string, shapes: seq<Shape>)
    requires ParseLines(Defaults(text), shapes).Ok?
    ensures var d := ParseLines(Defaults(text), shapes).value;
      && d.text == text
      && d.axiom == (match LastValue(shapes, Axiom) case None => "X" case Some(v) => v)
      && d.angle == (match LastValue(shapes, Angle) case None => Finite(90.0) case Some(v) => ParseFloat(v))
      && (LastValue(shapes, Order).Some? ==> AllDigits(LastValue(shapes, Order).value))
      && d.order == (match LastValue(shapes, Order) case None => None case Some(v) => Some(ParseInt(v)))
      && d.animate == LastValue(shapes, Animate).Some?
      && d.colorful == LastValue(shapes, Colorful).Some?
  {
    var d := ParseLines(Defaults(text), shapes).value;
    TextKept(Defaults(text), shapes);
    LastSettingWins(Defaults(text), shapes, Axiom);
    assert FieldOf(d, Axiom) == Text(d.axiom);
    LastSettingWins(Defaults(text), shapes, Angle);
    assert FieldOf(d, Angle) == Number(d.angle);
    LastSettingWins(Defaults(text), shapes, Order);
    assert FieldOf(d, Order) == Count(d.order);
    LastSettingWins(Defaults(text), shapes, Animate);
    assert FieldOf(d, Animate) == Switch(d.animate);
    LastSettingWins(Defaults(text), shapes, Colorful);
    assert FieldOf(d, Colorful) == Switch(d.colorful);
  }

  /** The axiom and the angle of a parsed system: the last line for each
      wins; without one the axiom is `X` and the angle 90. */
  lemma ParsedAxiomAngle(text: string, sys: System)
    requires ParseText(text) == Ok(sys)
    ensures var shapes := Shapes(SplitLines(text));
      && sys.text == text
      && sys.axiom == (match LastValue(shapes, Axiom) case None => "X" case Some(v) => v)
      && sys.angle == (match LastValue(shapes, Angle) case None => Finite(90.0) case Some(v) => ParseFloat(v))
  {
    ReadSettings(text, Shapes(SplitLines(text)));
  }

  /** The order of a parsed system is that of its last `order` line, except
      that it is 2 when there is no such line or when that line says 0. */
  lemma ParsedOrder(text: string, sys: System)
    requires ParseText(text) == Ok(sys)
    ensures var last := LastValue(Shapes(SplitLines(text)), Order);
      && (last.Some? ==> AllDigits(last.value))
      && sys.order == (if last == None then 2 else if ParseInt(last.value) == 0 then 2 else ParseInt(last.value))
      && sys.order >= 1
  {
    var shapes := Shapes(SplitLines(text));
    var d := ParseLines(Defaults(text), shapes).value;
    LastSettingWins(Defaults(text), shapes, Order);
    assert FieldOf(d, Order) == Count(d.order);
    assert sys.order == if d.order == None || d.order == Some(0) then 2 else d.order.value;
  }

  /** The flags of a parsed system are true exactly when a line names them,
      whatever value it gives. */
  lemma ParsedFlags(text: string, sys: System)
    requires ParseText(text) == Ok(sys)
    ensures sys.animate == LastValue(Shapes(SplitLines(text)), Animate).Some?
    ensures sys.colorful == LastValue(Shapes(SplitLines(text)), Colorful).Some?
  {
    ReadSettings(text, Shapes(SplitLines(text)));
  }

  /** The rules of a parsed system: the last rule line for each symbol, and
      every other character of a rule body registered as a constant. */
  lemma ParsedRules(text: string, sys: System)
    requires ParseText(text) == Ok(sys)
    ensures forall x :: LastRule(Shapes(SplitLines(text)), x).Some? <==> x in sys.rules
    ensures forall x :: x in sys.rules ==> sys.rules[x] == LastRule(Shapes(SplitLines(text)), x).value
    ensures forall c :: c in sys.constants <==>
      c !in sys.rules && exists x :: x in sys.rules && c in sys.rules[x]
  {
    forall x
      ensures LastRule(Shapes(SplitLines(text)), x).Some? <==> x in sys.rules
      ensures x in sys.rules ==> sys.rules[x] == LastRule(Shapes(SplitLines(text)), x).value
    {
      LastRuleWins(Defaults(text), Shapes(SplitLines(text)), x);
    }
  }

  /** The values and bodies a line can carry: `(.*)` reads no line
      terminator. */
  predicate PlainShape(shape: Shape) {
    match shape
    case Param(_, _, value) => value.Some? ==> NoLineTerminator(value.value)
    case Rule(_, body) => NoLineTerminator(body)
    case _ => true
  }

  lemma DropBlanksPlain(s: string)
    requires NoLineTerminator(s)
    ensures NoLineTerminator(DropBlanks(s))
  {
    var k := |TakeWhile(s, IsBlank)|;
    forall i | 0 <= i < |s| - k ensures !IsLineTerminator(DropBlanks(s)[i]) {
      assert DropBlanks(s)[i] == s[k + i];
    }
  }

  /** No classified line carries a line terminator in its value or body. */
  lemma ShapeOfPlain(line: string)
    ensures PlainShape(ShapeOf(line))
  {
    if line != [] && !(|line| >= 2 && line[..2] == "//") {
      var key := TakeWhile(line, IsLower);
      var rest := line[|key|..];
      if key != [] && rest != [] {
        var afterKey := DropBlanks(rest);
        if afterKey != [] && afterKey[0] == ':' && NoLineTerminator(afterKey[1..]) {
          DropBlanksPlain(afterKey[1..]);
        }
      }
      if line != [] && IsUpper(line[0]) {
        var tail := DropBlanks(line[1..]);
        if |tail| >= 2 && tail[..2] == "->" && NoLineTerminator(tail[2..]) {
          DropBlanksPlain(tail[2..]);
        } else if tail != [] && tail[0] == '=' && NoLineTerminator(tail[1..]) {
          DropBlanksPlain(tail[1..]);
        }
      }
    }
  }

  lemma {:induction false} LastPlain(shapes: seq<Shape>, name: ParamName, x: char)
    requires forall i :: 0 <= i < |shapes| ==> PlainShape(shapes[i])
    ensures LastValue(shapes, name).Some? ==> NoLineTerminator(LastValue(shapes, name).value)
    ensures LastRule(shapes, x).Some? ==> NoLineTerminator(LastRule(shapes, x).value)
    decreases |shapes|
  {
    if shapes != [] {
      assert PlainShape(shapes[0]);
      LastPlain(shapes[1..], name, x);
    }
  }

  lemma ShapesPlain(lines: seq<string>)
    ensures forall i :: 0 <= i < |lines| ==> PlainShape(Shapes(lines)[i])
  {
    forall i | 0 <= i < |lines| ensures PlainShape(Shapes(lines)[i]) {
      ShapeOfPlain(Trim(lines[i]));
    }
  }

  lemma AxiomValuePlain(shapes: seq<Shape>, axiom: string)
    requires forall i :: 0 <= i < |shapes| ==> PlainShape(shapes[i])
    requires axiom == (match LastValue(shapes, Axiom) case None => "X" case Some(v) => v)
    ensures NoLineTerminator(axiom)
  {
    LastPlain(shapes, Axiom, 'X');
  }

  /** The axiom of a parsed system holds no line terminator: it comes from
      `(.*)`, or is the default `X`. */
  lemma ParsedAxiomPlain(text: string, sys: System)
    requires ParseText(text) == Ok(sys)
    ensures NoLineTerminator(sys.axiom)
  {
    ParsedAxiomAngle(text, sys);
    ShapesPlain(SplitLines(text));
    AxiomValuePlain(Shapes(SplitLines(text)), sys.axiom);
  }

  /** No rule body of a parsed system holds a line terminator: each comes
      from `(.*)`. */
  lemma ParsedRulesPlain(text: string, sys: System)
    requires ParseText(text) == Ok(sys)
    ensures forall x :: x in sys.rules ==> NoLineTerminator(sys.rules[x])
  {
    var shapes := Shapes(SplitLines(text));
    ShapesPlain(SplitLines(text));
    forall x | x in sys.rules ensures NoLineTerminator(sys.rules[x]) {
      LastRuleWins(Defaults(text), shapes, x);
      LastPlain(shapes, Axiom, x);
    }
  }

  // ---------------------------------------------------------------------
  // Examples

  /** A text that is one parameter line `key: value` reads as that one line. */
  lemma ParamText(key: string, v: string)
    requires key != [] && forall i :: 0 <= i < |key| ==> IsLower(key[i])
    requires v != [] && v[0] != ' ' && !IsSpace(v[|v| - 1]) && NoLineTerminator(v)
    ensures Shapes(SplitLines(key + ": " + v)) == [Param(key, Known(key), Some(v))]
  {
    var line := key + ": " + v;
    assert '\n' !in line by {
      forall i | 0 <= i < |line| ensures line[i] != '\n' {
        if i < |key| {
          assert line[i] == key[i];
        } else if i >= |key| + 2 {
          assert line[i] == v[i - |key| - 2];
          assert !IsLineTerminator(v[i - |key| - 2]);
        }
      }
    }
    SplitOneLine(line);
    assert line[0] == key[0] && line[|line| - 1] == v[|v| - 1];
    TrimKeeps(line);
    ParamLineShape(key, v);
  }

  /** A one-line text `key: value` whose key is no known parameter is
      rejected with that key. */
  lemma UnknownKeyText(key: string, v: string)
    requires key != [] && forall i :: 0 <= i < |key| ==> IsLower(key[i])
    requires Known(key) == None
    requires v != [] && v[0] != ' ' && !IsSpace(v[|v| - 1]) && NoLineTerminator(v)
    ensures ParseText(key + ": " + v) == Err(UnknownKey(key))
    ensures Message(ParseText(key + ": " + v).error) == "Err: key not known: " + key
  {
    ParamText(key, v);
  }

  /** A one-line text `key: value` naming a known parameter with a value
      its pattern refuses is rejected as an invalid parameter. */
  lemma InvalidValueText(key: string, v: string)
    requires key != [] && forall i :: 0 <= i < |key| ==> IsLower(key[i])
    requires Known(key).Some? && !Accepts(Known(key).value, v)
    requires v != [] && v[0] != ' ' && !IsSpace(v[|v| - 1]) && NoLineTerminator(v)
    ensures ParseText(key + ": " + v) == Err(InvalidParameter(key))
    ensures Message(ParseText(key + ": " + v).error) == "Parameter invalid: " + key
  {
    ParamText(key, v);
  }

  /** `angle: x` is refused: the angle must be digits and points. */
  lemma SampleInvalidAngle()
    ensures ParseText("angle: x") == Err(InvalidParameter("angle"))
  {
    var key, v := "angle", "x";
    assert Known(key) == Some(Angle);
    assert !IsNumeric(v[0]);
    assert forall i :: 0 <= i < |key| ==> IsLower(key[i]);
    InvalidValueText(key, v);
    assert key + ": " + v == "angle: x";
  }

  /** A text of one line that is neither blank, a comment, a parameter nor
      a rule is rejected with that line. */
  lemma UnparseableText(line: string)
    requires '\n' !in line && line != [] && !IsSpace(line[0]) && !IsSpace(line[|line| - 1])
    requires ShapeOf(line).Unparseable?
    ensures ParseText(line) == Err(NotParseable(line))
    ensures Message(ParseText(line).error) == "Err: line not parseable: " + line
  {
    SplitOneLine(line);
    TrimKeeps(line);
    assert Shapes(SplitLines(line)) == [ShapeOf(line)];
  }

  /** `X + F` starts like a rule but has neither `->` nor `=`. */
  lemma SampleUnparseable()
    ensures ParseText("X + F") == Err(NotParseable("X + F"))
  {
    var line := "X + F";
    assert TakeWhile(line, IsLower) == [];
    assert MatchParam(line) == None;
    var rest := DropBlanks(line[1..]);
    assert TakeWhile(line[1..], IsBlank) == " ";
    assert rest == "+ F";
    assert MatchRule(line) == None;
    UnparseableText(line);
  }

  /** The first line that fails decides the error, whatever follows it. */
  lemma FirstErrorWins(d: Draft, shapes: seq<Shape>, i: nat)
    requires i < |shapes|
    requires ParseLines(d, shapes[..i]).Ok?
    requires ApplyShape(ParseLines(d, shapes[..i]).value, shapes[i]).Err?
    ensures ParseLines(d, shapes) == Err(ApplyShape(ParseLines(d, shapes[..i]).value, shapes[i]).error)
  {
    ParseLinesAppend(d, shapes[..i], shapes[i..]);
    assert shapes[..i] + shapes[i..] == shapes;
    assert shapes[i..][0] == shapes[i];
  }

  /** The three errors, and which lines raise them, whatever was read
      before. */
  lemma LineErrors(d: Draft, shape: Shape)
    ensures shape.Unparseable? ==> ApplyShape(d, shape) == Err(NotParseable(shape.line))
    ensures shape.Param? && shape.name.None? ==> ApplyShape(d, shape) == Err(UnknownKey(shape.key))
    ensures shape.Param? && shape.name.Some? ==>
      var v := if shape.value.Some? then shape.value.value else "";
      ApplyShape(d, shape) == if Accepts(shape.name.value, v) then Ok(SetParam(d, shape.name.value, v))
                              else Err(InvalidParameter(shape.key))
    ensures shape.Blank? || shape.Comment? || shape.Rule? ==> ApplyShape(d, shape).Ok?
  {
  }
}
