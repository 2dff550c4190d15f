# L-system grammar, expansion and turtle interpretation

This project models `src/routes/lib.js`, the core of a small L-system
drawing site, in Dafny and proves properties of the model. The core has
four parts:

- `parse(text)` reads a grammar text into a system. Lines are `key: value`
  parameter lines and `X -> body` / `X = body` rule lines. `//` comments
  and blank lines are skipped. Every character of a rule body that is not
  itself a rule symbol becomes a self-mapping constant, and a missing or
  zero `order` becomes 2.
- `bounds(lines)` widens the box `[0, 0, 0, 0]` over every point of every
  line.
- `L(system)` is a lazy, append-only cache of generations. Generation 0 is
  the axiom, and each later generation rewrites every character of the one
  before except the four line terminators, which `/./g` does not match.
  It comes with its `reset`.
- `linedata(g, order)` is the turtle. It scans a generation token by token:
  single characters and `@[IQ]?[0-9.]+^?` step directives. It drives a
  stack of transforms, a list of polylines, a stack of open polygons and a
  list of closed polygons.

Modules, one per file:

| file | module | models |
|---|---|---|
| `js_text.dfy` | `JsText` | the JavaScript built-ins the core relies on: `trim`, `split('\n')`, `parseInt`, `parseFloat`, the character classes of its regular expressions |
| `grammar.dfy` | `Grammar` | `parse`: line shapes, the parameter table, the line loop, the constants loop, the order default |
| `expansion.dfy` | `Expansion` | one generation step, the generations, and the cache `L` as the class `Generations` |
| `scanner.dfy` | `Scanner` | the token pattern of the scan loop in `linedata` |
| `turtle.dfy` | `LineData` | `linedata`: the helper closures and `instructions` as the class `Turtle`, the scan loop as `Interpret`, the whole as `LineDataOf` |
| `bounds.dfy` | `BoundingBox` | `bounds` |

The loops of the source are methods with loops: `Grammar.ReadLines`,
`Grammar.CollectConstants`, `Expansion.Generations.Get`,
`LineData.Interpret` and `BoundingBox.Bounds`. Each is proved equal to a
specification function: `ParseLines`, `ConstantsOf`, `Generation`,
`Render` and `BoxOf`. The properties are proved as lemmas about those
functions.

The matrix arithmetic of `transformation-matrix-js` is kept symbolic:

- A transform is the list of motions (`Translate(step)`,
  `Rotate(degrees)`) applied to the identity.
- A step length is the list of directive factors multiplied into 1.
- A point is the transform it was read from (`Origin`), or that transform
  and the step it looks ahead (`Ahead`).

So what the turtle builds is exact, and only its numeric evaluation is
left out.

Two consequences of the code that the model keeps:

- `order: 0` becomes 2, because `!system.order` is true for 0 (lib.js:68-70).
- `F` appends to the newest line and never starts one, so `F+F+F+F` draws
  a single polyline of five points (lib.js:139).

## Model

| member | source | states |
|---|---|---|
| JsText.TakeWhile | src/routes/lib.js:36 | a greedy character-class run: the longest prefix whose characters all match, stopping at the first one that does not |
| JsText.Trim | src/routes/lib.js:32 | `line.trim()`: the result neither starts nor ends with white space |
| JsText.SplitLines | src/routes/lib.js:31 | `text.split('\n')`: at least one piece, and no piece holds a newline |
| JsText.ParseInt | src/routes/lib.js:15 | `parseInt` on a string of digits: its decimal value, read left to right |
| JsText.ParseFloat | src/routes/lib.js:14 | `parseFloat` on a run of digits and points: the digits before the first point, then those after it, NaN without any digit |
| JsText.TrimIsSlice | src/routes/lib.js:32 | `line.trim()` is a slice of the line, and everything outside the slice is white space |
| JsText.TrimKeeps | src/routes/lib.js:32 | a line without white space at either end is not changed by `trim` |
| JsText.JoinSplit | src/routes/lib.js:31 | joining the pieces of `split('\n')` with newlines gives the text back |
| JsText.SplitJoin | src/routes/lib.js:31 | splitting newline-joined pieces that contain no newline gives the pieces back |
| JsText.ParseIntDecimal | src/routes/lib.js:15 | `parseInt` of the decimal numeral of n is n |
| JsText.ParseFloatOfDigits | src/routes/lib.js:14 | on a string of digits, `parseFloat` agrees with `parseInt` |
| JsText.ParseFloatNaN | src/routes/lib.js:167 | on a run of digits and points, `parseFloat` is NaN exactly when the text starts neither with a digit nor with a point followed by a digit |
| Grammar.Known | src/routes/lib.js:13-22 | the table `known`: the eight keys `angle`, `order`, `axiom`, `animate`, `colorful`, `stroke`, `fill` and `bg`, each naming its parameter, and no other key |
| Grammar.Accepts | src/routes/lib.js:14-15 | the value test: `^[0-9\.]+$` for `angle`, `^[0-9]+$` for `order`, `/.*/` (anything) for the others |
| Grammar.Coerced | src/routes/lib.js:14-22 | the coercion: `parseFloat` for `angle`, `parseInt` for `order`, `String` for the texts, `() => true` for the flags |
| Grammar.Message | src/routes/lib.js:45-54 | the three thrown texts: `Parameter invalid: `, `Err: key not known: ` and `Err: line not parseable: ` followed by the key or the line |
| Grammar.MatchParam | src/routes/lib.js:36 | the pattern `^([a-z]+)(?:[ ]*:[ ]*(.*))?$`: a run of lowercase letters, then nothing or blanks, a colon, blanks and a value without line terminators |
| Grammar.MatchRule | src/routes/lib.js:51 | the rule pattern: one capital, blanks, `->` or `=`, blanks, and the rest of the line as the body |
| Grammar.ShapeOf | src/routes/lib.js:33-54 | a trimmed line is tried in the source's order: empty, `//` comment, parameter, rule, else not parseable |
| Grammar.ApplyShape | src/routes/lib.js:33-55 | one line's effect: skipped lines change nothing, a known key with a passing value sets its field, a rule line sets its symbol's body, and the three errors otherwise |
| Grammar.Complete | src/routes/lib.js:58-70 | the end of `parse`: the constants are kept beside the rules, as the prototype `Object.create(constants)` of lib.js:66 keeps them, and a missing or zero order becomes 2 |
| Grammar.SetParam | src/routes/lib.js:47 | a checked value sets the field of its own parameter to the coerced value, and every other field, the rules and the text are unchanged |
| Grammar.ParamLineShape | src/routes/lib.js:36 | a trimmed line `key: value` matches the parameter pattern with that key and value |
| Grammar.RuleLineShape | src/routes/lib.js:51 | a trimmed line `X -> body` is not a comment or a parameter, and matches the rule pattern with that symbol and body |
| Grammar.UpperStart | src/routes/lib.js:34-36 | a line starting with a capital is neither a `//` comment nor a parameter line |
| Grammar.CollectConstants | src/routes/lib.js:58-65 | the nested loops collect exactly the body characters that are not rule symbols |
| Grammar.ReadLines | src/routes/lib.js:31-56 | the line loop yields the result of reading the trimmed, classified lines in order, stopping at the first error |
| Grammar.Parse | src/routes/lib.js:4-73 | the whole parse equals `ParseText`: the line loop, then the constants, then the order default |
| Grammar.LastSettingWins | src/routes/lib.js:37-47 | each parameter ends with the coerced value of its last line (which passed its pattern), or keeps its starting value when no line names it |
| Grammar.LastRuleWins | src/routes/lib.js:51-52 | a symbol's rule is the body of its last rule line; a symbol without a rule line keeps what it had |
| Grammar.ParseLinesAppend | src/routes/lib.js:31-56 | reading two runs of lines is reading the first and then the second from where the first stopped |
| Grammar.SkippedLine | src/routes/lib.js:33-34 | a blank or `//` line changes nothing, wherever it stands |
| Grammar.SkippedShapes | src/routes/lib.js:32-34 | a line that trims to nothing or starts with `//` is classified blank or comment |
| Grammar.TextKept | src/routes/lib.js:27 | reading lines never changes the stored text |
| Grammar.ReadSettings | src/routes/lib.js:5-11 | from the defaults, the text, axiom, angle, order and flags a run of lines leaves, in terms of each parameter's last line |
| Grammar.ParsedAxiomAngle | src/routes/lib.js:5-7 | a parsed system keeps its text; its axiom and angle come from their last lines, and are `X` and 90 without one |
| Grammar.ParsedOrder | src/routes/lib.js:68-70 | the order is that of the last `order` line (all digits), but 2 when there is none or it reads 0; so it is at least 1 |
| Grammar.ParsedFlags | src/routes/lib.js:17-18 | `animate` and `colorful` are true exactly when a line names them, whatever its value |
| Grammar.ShapeOfPlain | src/routes/lib.js:36-51 | no classified line carries a line terminator in its value or rule body, since `(.*)` reads none |
| Grammar.LastPlain | src/routes/lib.js:36-52 | the last value of a parameter and the last body of a symbol hold no line terminator when no line carries one |
| Grammar.ParsedAxiomPlain | src/routes/lib.js:6-47 | the axiom of a parsed system holds no line terminator: it comes from `(.*)` or is the default `X` |
| Grammar.ParsedRulesPlain | src/routes/lib.js:51-52 | no rule body of a parsed system holds a line terminator |
| Grammar.ParsedRules | src/routes/lib.js:51-66 | the rules are the last rule line per symbol, and the constants are exactly the non-rule characters of rule bodies |
| Grammar.ParamText | src/routes/lib.js:31-36 | a one-line text `key: value` splits and classifies to that single parameter line |
| Grammar.UnknownKeyText | src/routes/lib.js:37-49 | a one-line text with an unknown lowercase key is rejected with `key not known` and that key |
| Grammar.InvalidValueText | src/routes/lib.js:44-45 | a one-line text naming a known parameter with a value its pattern refuses is rejected with `Parameter invalid: ` and that key |
| Grammar.SampleInvalidAngle | src/routes/lib.js:44-45 | the text `angle: x` is rejected as an invalid `angle` |
| Grammar.UnparseableText | src/routes/lib.js:53-54 | a one-line text that is no blank, comment, parameter or rule line is rejected with `Err: line not parseable: ` and that line |
| Grammar.SampleUnparseable | src/routes/lib.js:51-54 | the text `X + F`, a capital without `->` or `=`, is rejected as not parseable |
| Grammar.FirstErrorWins | src/routes/lib.js:44-55 | the first failing line decides the error, whatever lines follow |
| Grammar.LineErrors | src/routes/lib.js:36-55 | which line raises which error: an unknown key, a value failing its pattern, an unparseable line; blank, comment and rule lines never fail |
| Expansion.Replacement | src/routes/lib.js:101 | what `replace(/./g, c => system.rules[c])` puts in place of a character: a line terminator, which `.` does not match, stays as it is; any other character goes to its lookup |
| Expansion.Rewrite | src/routes/lib.js:101 | in a closed system, what one step yields resolves in turn |
| Expansion.Generation | src/routes/lib.js:93-102 | every generation of a closed system with a resolvable axiom resolves |
| Expansion.ParsedIsClosed | src/routes/lib.js:58-66 | a parsed system resolves every character of every rule body |
| Expansion.Lookup | src/routes/lib.js:66 | `system.rules[c]`: the own rule first, then the self-mapping constant inherited from the prototype, else `undefined` |
| Expansion.ParsedLookup | src/routes/lib.js:58-66 | in a parsed system a rule symbol rewrites to its last rule body, a body character without rule to itself, and nothing else resolves |
| Expansion.RewriteAppend | src/routes/lib.js:101 | one step distributes over concatenation |
| Expansion.RewriteChar | src/routes/lib.js:101 | one character rewrites to exactly its lookup, and a line terminator to itself |
| Expansion.RewritePlain | src/routes/lib.js:101 | a step on a string without line terminators, with rule bodies without them, yields none |
| Expansion.ParsedGenerationPlain | src/routes/lib.js:36-101 | in a parsed system with a resolvable axiom no generation holds a line terminator, so each step replaces every character by its lookup |
| Expansion.ConstantsStay | src/routes/lib.js:61-62 | a string of constants is left as it is |
| Expansion.ConstantPersists | src/routes/lib.js:61-62 | a constant present before a step is present after it |
| Expansion.RewriteAround | src/routes/lib.js:101 | with constants `a` and `m`, a step on `a x m x` rewrites only the two copies of `x` |
| Expansion.EmptyStaysEmpty | src/routes/lib.js:98-101 | once a generation is empty, every later one is too |
| Expansion.SampleFirst | src/routes/lib.js:93-101 | with axiom `X` and rule `X -> F+X-X`, generation 1 is `F+X-X` |
| Expansion.SampleStep | src/routes/lib.js:101 | one step from `F+X-X` gives `F+F+X-X-F+X-X` |
| Expansion.SampleSecond | src/routes/lib.js:97-106 | generation 2 of that system is `F+F+X-X-F+X-X` |
| Expansion.Generations.constructor | src/routes/lib.js:90-113 | `L(system)` starts with the axiom alone, and the cache is valid |
| Expansion.Generations.Reset | src/routes/lib.js:93-95 | `reset` puts the cache back to the axiom alone |
| Expansion.Generations.Get | src/routes/lib.js:97-106 | `g(n)` yields generation n, only appends to the cache (up to n + 1 entries), and keeps every entry equal to its generation |
| Scanner.NextTokenSpelled | src/routes/lib.js:162-163 | the token matched at the front is readable, and the text starts with its spelling, which is what the slice removes |
| Scanner.NextToken | src/routes/lib.js:162 | the scan pattern: one character other than `@`, or an `@` directive, or no match when the text is empty or an `@` begins no directive |
| Scanner.ReadDirective | src/routes/lib.js:162-165 | after `@`: an optional `I` or `Q`, a non-empty run of digits and points, an optional `^` |
| Scanner.NextTokenFails | src/routes/lib.js:162 | the pattern fails exactly on the empty text and on an `@` not followed by digits or points (after an optional `I` or `Q`) |
| Scanner.DirectiveSpelled | src/routes/lib.js:164-166 | a directive is read back as its mode letter, its digits and its caret, in that order |
| Scanner.Scan | src/routes/lib.js:162-177 | the tokens read are readable, their spellings followed by the unread rest give the text back, and the rest matches no token |
| Scanner.ScanNext | src/routes/lib.js:162-163 | the scan reads the front token and carries on after its spelling, or stops at once |
| Scanner.ScanToken | src/routes/lib.js:162-163 | a readable token followed by text that cannot extend it is read first |
| Scanner.ScanSpell | src/routes/lib.js:162-177 | round trip: the spelling of readable, separated tokens, ended by nothing or a blocked `@`, scans back to exactly those tokens |
| Scanner.NextTokenExtends | src/routes/lib.js:162 | a token that ends before the text does is unchanged by appending more text |
| Scanner.ScanStops | src/routes/lib.js:162 | after an `@` that cannot begin a directive, nothing more is read, whatever follows |
| Scanner.ScanPlain | src/routes/lib.js:162-163 | a string without `@` is read character by character to the end |
| Scanner.SpellAppend | src/routes/lib.js:163 | spelling distributes over concatenation of token runs |
| Scanner.SampleStop | src/routes/lib.js:162 | the scan of `@x-F` reads nothing |
| Scanner.SampleScan | src/routes/lib.js:162-171 | `F@Q2^+@x-F` scans to `F`, a raised square-root directive with digits `2`, and `+`, and stops at `@x-F` |
| LineData.Initial | src/routes/lib.js:116-120 | the starting state: one transform with step 1, and one line holding its origin |
| LineData.StartNewLine | src/routes/lib.js:122 | `start_new_line`: a new line holding the current origin goes in front of the lines |
| LineData.DrawLine | src/routes/lib.js:123 | `draw_line`: the point one step ahead joins the newest line |
| LineData.JustMove | src/routes/lib.js:124 | `just_move`: the top transform is translated by its own step |
| LineData.Turn | src/routes/lib.js:142-144 | `rotateDeg`: the top transform is rotated by the given angle |
| LineData.CloseRing | src/routes/lib.js:133-135 | `polygon.push(polygon[0])`: the ring gains one point, its first, or `undefined` when it was empty |
| LineData.FactorOf | src/routes/lib.js:166-170 | the factor of a directive: `parseFloat` of its digits, raised to the system's order with `^`, inverted with `I`, square-rooted with `Q` |
| LineData.Exec | src/routes/lib.js:138-154 | one token: the instruction of a character (nothing for one without), or the directive's factor multiplied into the top step |
| LineData.ExecWellformed | src/routes/lib.js:138-154 | every step keeps the transform stack and the line list non-empty |
| LineData.Run | src/routes/lib.js:162-177 | a run that succeeds ends well formed |
| LineData.ExecFails | src/routes/lib.js:126-136 | a step fails exactly when `.` or `}` finds no open polygon, or `]` pops the last transform, each with its own error |
| LineData.ExecLines | src/routes/lib.js:122-123 | `F` and `f` add the point one step ahead to the newest line; `f`, `g` and `]` then start a new line; nothing else touches the lines |
| LineData.ExecCounts | src/routes/lib.js:138-154 | per token, how many lines, points, closed polygons, open polygons and transforms there are afterwards; closed polygons are only appended |
| LineData.ExecPoints | src/routes/lib.js:122-124 | per token, one line more for `f`, `g` and `]`; one point more for `F`, `g` and `]`, two for `f` |
| LineData.ExecTidy | src/routes/lib.js:131-136 | a step keeps lines non-empty and every closed polygon ending at its first point |
| LineData.ExecDirective | src/routes/lib.js:164-171 | a directive multiplies its factor (parseFloat of its digits, raised to the system order with `^`, inverted with `I`, rooted with `Q`) into the top step only |
| LineData.PushPop | src/routes/lib.js:145-149 | `[` pushes a copy of the top; `[` then `]` gives the stack back and starts a new line at its origin |
| LineData.ExecKeepsLower | src/routes/lib.js:139-153 | tokens other than `[` and `]` leave every entry below the top alone |
| LineData.RunAppend | src/routes/lib.js:162-177 | running two runs of tokens is running the first and then the second from where it stopped |
| LineData.RunCounts | src/routes/lib.js:138-154 | counts after a run: lines, points, closed and open polygons and stack depth, in terms of how often each token occurs |
| LineData.RunTidy | src/routes/lib.js:131-136 | a run keeps lines non-empty and closed polygons closed |
| LineData.RunSafe | src/routes/lib.js:126-136 | without `.`, `}` and `]` a run cannot fail |
| LineData.RunKeepsLower | src/routes/lib.js:139-153 | a run without brackets changes only the top transform |
| LineData.Bracketed | src/routes/lib.js:145-149 | `[`, bracket-free tokens, `]` gives the transform stack back as it was |
| LineData.BracketRun | src/routes/lib.js:145-149 | `[` tokens `]` is the push, the tokens from the pushed stack, then the pop |
| LineData.DrawCounts | src/routes/lib.js:115-182 | the drawing has 1 + f + g + ] lines, 1 + F + 2f + g + ] points, one polygon per `}`, non-empty lines and closed polygons |
| LineData.CountPlain | src/routes/lib.js:162-163 | on a string without `@`, a symbol occurs among the tokens as often as the character occurs in the string |
| LineData.SquareTokens | src/routes/lib.js:162-163 | `F+F+F+F` scans to four `F`, three `+` and nothing else |
| LineData.OneLine | src/routes/lib.js:139 | without `f`, `g`, `]`, `.` and `}`, the drawing is one line with one point per `F` after the start, and no polygon |
| LineData.SquareOutline | src/routes/lib.js:139-142 | `F+F+F+F` draws one line of five points and no polygon |
| LineData.RunDots | src/routes/lib.js:126-129 | k dots add k copies of the current origin to the innermost open polygon and change nothing else |
| LineData.DotsPolygon | src/routes/lib.js:126-136 | `{`, k dots, `}` adds one closed polygon: k + 1 copies of the current origin |
| LineData.EmptyBraces | src/routes/lib.js:131-136 | `{}` adds the one-point polygon `[undefined]`, not an error |
| LineData.RunCons | src/routes/lib.js:162-177 | a run of a token and more is that token's step, then the rest unless the step failed |
| LineData.Turtle.constructor | src/routes/lib.js:116-120 | the four lists start as the initial state |
| LineData.Turtle.NewLine | src/routes/lib.js:122 | `start_new_line` puts a line with the top origin in front of the lines |
| LineData.Turtle.Segment | src/routes/lib.js:123 | `draw_line` is the `DrawLine` step |
| LineData.Turtle.Advance | src/routes/lib.js:124 | `just_move` is the `JustMove` step |
| LineData.Turtle.TurnBy | src/routes/lib.js:142-144 | `rotateDeg` is the `Turn` step |
| LineData.Turtle.AddPolyDot | src/routes/lib.js:126-129 | `add_poly_dot` fails exactly without an open polygon, changing nothing, and otherwise appends the top origin to the innermost one |
| LineData.Turtle.StartPolygon | src/routes/lib.js:130 | `start_polygon` opens an empty polygon in front |
| LineData.Turtle.ClosePolygon | src/routes/lib.js:131-136 | `close_polygon` fails exactly without an open polygon, and otherwise moves the innermost one, closed, to the end of the polygons |
| LineData.Turtle.Execute | src/routes/lib.js:138-154 | one instruction or directive on the lists is `Exec` on the old state: the same new state, or the same error |
| LineData.Interpret | src/routes/lib.js:156-179 | the scan loop over a string yields exactly `Render`: the drawing, or the first error |
| LineData.LineDataOf | src/routes/lib.js:115-182 | `linedata(g, order)` draws generation `order` (the system's order by default) with the system's angle and order; the cache stays valid, is only appended to, and ends holding exactly up to that generation when it held fewer |
| BoundingBox.Include | src/routes/lib.js:80-83 | the four comparisons give a box that holds the point and, from a proper box, holds the old box |
| BoundingBox.Bounds | src/routes/lib.js:75-88 | the nested loops leave in the four-element array exactly `BoxOf(lines)` |
| BoundingBox.FitGrows | src/routes/lib.js:78-85 | the fold only widens, and ends holding every point |
| BoundingBox.FitTight | src/routes/lib.js:80-83 | each bound of the fold is its start value or a coordinate of one of the points |
| BoundingBox.FlattenMembers | src/routes/lib.js:78-79 | the points visited are exactly the points of the lines |
| BoundingBox.BoundsContain | src/routes/lib.js:75-88 | the box holds the origin and every point of every line |
| BoundingBox.BoundsTight | src/routes/lib.js:75-88 | each bound is 0 or a coordinate of some point, so the box is the smallest such box |
| BoundingBox.BoundsEmpty | src/routes/lib.js:76 | without any point the result is `[0, 0, 0, 0]` |

## Left out

- The numeric value of transforms, points and step lengths is not computed. `transformation-matrix-js` (`rotateDeg`, `translate`, `applyToPoint`, `clone`), `Math.pow`, `Math.sqrt` and `1 / n` stay symbolic, so no geometric fact, such as `F+F+F+F` closing a square, is proved.
- `BoundingBox.Bounds` takes points with real coordinates; connecting it to the symbolic points of `LineData` would need that evaluation. NaN coordinates are not modelled.
- JsText.ParseFloat: reads only runs of digits and points, the only strings that reach it (the `angle` pattern at lib.js:14 and the directive pattern at lib.js:162). A sign, leading white space, an exponent or `Infinity`, which JavaScript's `parseFloat` reads, give NaN or stop the number here.
- LineData.Exec: `]` on the last transform is not a check of the source. `mat.shift()` empties the stack and `start_new_line` then throws a TypeError on `mat[0]` (lib.js:149, 122); the model returns `TransformStackEmpty`. An error thrown while drawing, this one or the `No polygon` throws of lib.js:127 and 132, leaves the promise of `linedata` unsettled, so the caller never sees it; the model returns it as an `Err` result.
- Floating point: `parseFloat` is exact decimal arithmetic with no rounding to a double. `Num` only has the NaN that an unreadable number gives.
- JsText.ParseInt: the exact `nat` of the digits. JavaScript's `parseInt` returns a double, so an `order` above 2^53 is rounded in the source (`parseInt("9007199254740993")` is 9007199254740992) and not in the model.
- The Promise of `g(n)` and of `linedata`, and the `setTimeout` between generation steps, are not modelled; the model is sequential.
- Expansion.Rewrite: a character with neither rule nor constant is excluded by the precondition `Resolves`. In the source, `replace` would splice in the text `undefined`. A parsed system is proved closed (`ParsedIsClosed`), so only an axiom character can be unresolved. Line terminators always resolve (`Replacement` keeps them), and a parsed system never holds one (`ParsedGenerationPlain`).
- Expansion.Generations.Get: requires the requested generation to be non-empty. On an empty generation the source's `if (gen[n])` test never succeeds, and it appends empty generations forever.
- `trim` follows the ECMAScript white-space set; `.` in the parameter and rule patterns and in the step's `/./g` excludes the four line terminators. JavaScript strings are UTF-16 code units while the model reads whole code points; for `/./`, `[^@]` and `split('')` as used here this makes no visible difference.
- Grammar.Known: keys inherited from `Object.prototype` are not modelled. The only lowercase one is `constructor`, which the source would accept and coerce through `Object`.
- `def` is modelled as default field values, not as a prototype object. A key missing from the text reads as its default; `animate` and `colorful` read as false.
- `src/routes/colors.js` and `scripts/gh-pages.js` are not part of this model.
