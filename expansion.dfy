/** The generation cache `L`: generation 0 is the axiom, and each further
    generation replaces every character of the one before, other than a
    line terminator, by its rule. */
module Expansion {
  import opened JsText
  import opened Grammar

  /** What a character rewrites to: its explicit rule first, then itself
      when it is a constant, and nothing when it is neither. */
  function Lookup(sys: System, c: char): Option<string> {
    if c in sys.rules then Some(sys.rules[c])
    else if c in sys.constants then Some([c])
    else None
  }

  /** What the step puts in place of `c`. The pattern `.` of
      `replace(/./g, …)` matches no line terminator, so those four
      characters stay as they are; every other character goes to its
      lookup. */
  function Replacement(sys: System, c: char): (r: Option<string>)
    ensures IsLineTerminator(c) ==> r == Some([c])
    ensures !IsLineTerminator(c) ==> r == Lookup(sys, c)
  {
    if IsLineTerminator(c) then Some([c]) else Lookup(sys, c)
  }

  /** Every character of `s` is a line terminator, has a rule or is a
      constant. */
  predicate Resolves(sys: System, s: string) {
    forall i :: 0 <= i < |s| ==> Replacement(sys, s[i]).Some?
  }

  /** Every rule body is made only of characters that resolve. */
  predicate Closed(sys: System) {
    forall x :: x in sys.rules ==> Resolves(sys, sys.rules[x])
  }

  /** One generation step: the replacements of the characters of `s`,
      concatenated in order. In a closed system what it yields resolves in
      turn. */
  function Rewrite(sys: System, s: string): (r: string)
    requires Resolves(sys, s)
    ensures Closed(sys) ==> Resolves(sys, r)
  {
    if s == [] then []
    else
      var head := Replacement(sys, s[0]).value;
      var tail := Rewrite(sys, s[1..]);
      assert Closed(sys) ==> Resolves(sys, head);
      head + tail
  }

  /** Generation `n` of the system. */
  function Generation(sys: System, n: nat): (r: string)
    requires Closed(sys) && Resolves(sys, sys.axiom)
    ensures Resolves(sys, r)
  {
    if n == 0 then sys.axiom else Rewrite(sys, Generation(sys, n - 1))
  }

  // ---------------------------------------------------------------------
  // What a generation step is

  /** A parsed system resolves every character of its rule bodies: a body
      character is either a rule symbol or was registered as a constant. */
  lemma ParsedIsClosed(text: string, sys: System)
    requires ParseText(text) == Ok(sys)
    ensures Closed(sys)
  {
    ParsedRules(text, sys);
    forall x, i | x in sys.rules && 0 <= i < |sys.rules[x]|
      ensures Replacement(sys, sys.rules[x][i]).Some?
    {
      var c := sys.rules[x][i];
      assert c in sys.rules[x];
      if c !in sys.rules {
        assert c in sys.constants;
      }
    }
  }

  /** In a parsed system a rule symbol rewrites to the body of its last rule
      line, and any other character of a rule body rewrites to itself. */
  lemma ParsedLookup(text: string, sys: System, c: char)
    requires ParseText(text) == Ok(sys)
    ensures LastRule(Shapes(SplitLines(text)), c).Some? ==>
      Lookup(sys, c) == LastRule(Shapes(SplitLines(text)), c)
    ensures LastRule(Shapes(SplitLines(text)), c).None? && (exists x :: x in sys.rules && c in sys.rules[x]) ==>
      Lookup(sys, c) == Some([c])
    ensures LastRule(Shapes(SplitLines(text)), c).None? && Lookup(sys, c).Some? ==>
      exists x :: x in sys.rules && c in sys.rules[x]
  {
    ParsedRules(text, sys);
  }

  /** Rewriting distributes over concatenation: the step works character by
      character. */
  lemma {:induction false} RewriteAppend(sys: System, a: string, b: string)
    requires Resolves(sys, a) && Resolves(sys, b)
    ensures Resolves(sys, a + b)
    ensures Rewrite(sys, a + b) == Rewrite(sys, a) + Rewrite(sys, b)
    decreases |a|
  {
    assert forall i :: 0 <= i < |a + b| ==> (a + b)[i] == if i < |a| then a[i] else b[i - |a|];
    if a != [] {
      assert (a + b)[0] == a[0];
      assert (a + b)[1..] == a[1..] + b;
      RewriteAppend(sys, a[1..], b);
    } else {
      assert a + b == b;
    }
  }

  /** One character rewrites to exactly its lookup, and a line terminator
      to itself. */
  lemma RewriteChar(sys: System, c: char)
    requires Lookup(sys, c).Some? || IsLineTerminator(c)
    ensures Resolves(sys, [c])
    ensures IsLineTerminator(c) ==> Rewrite(sys, [c]) == [c]
    ensures !IsLineTerminator(c) ==> Rewrite(sys, [c]) == Lookup(sys, c).value
  {
    assert [c][1..] == [];
  }

  /** A string made only of constants (characters without a rule) is left
      as it is. */
  lemma {:induction false} ConstantsStay(sys: System, s: string)
    requires forall i :: 0 <= i < |s| ==> s[i] !in sys.rules && s[i] in sys.constants
    ensures Resolves(sys, s)
    ensures Rewrite(sys, s) == s
  {
    if s != [] {
      ConstantsStay(sys, s[1..]);
      assert [s[0]] + s[1..] == s;
    }
  }

  /** A constant present in a string is still present after a step. */
  lemma {:induction false} ConstantPersists(sys: System, s: string, c: char)
    requires Resolves(sys, s)
    requires c in s && c !in sys.rules && c in sys.constants
    ensures c in Rewrite(sys, s)
  {
    if s[0] == c {
      assert Rewrite(sys, s)[0] == c;
    } else {
      assert c in s[1..];
      ConstantPersists(sys, s[1..], c);
    }
  }

  /** A step on a string without line terminators, in a system whose rule
      bodies have none, yields none. */
  lemma {:induction false} RewritePlain(sys: System, s: string)
    requires Resolves(sys, s) && NoLineTerminator(s)
    requires forall x :: x in sys.rules ==> NoLineTerminator(sys.rules[x])
    ensures NoLineTerminator(Rewrite(sys, s))
    decreases |s|
  {
    if s != [] {
      RewritePlain(sys, s[1..]);
      var head := Replacement(sys, s[0]).value;
      var tail := Rewrite(sys, s[1..]);
      assert NoLineTerminator(head);
      forall i | 0 <= i < |head + tail| ensures !IsLineTerminator((head + tail)[i]) {
        if i >= |head| {
          assert (head + tail)[i] == tail[i - |head|];
        }
      }
    }
  }

  /** In a parsed system with a resolvable axiom no generation holds a line
      terminator, so the characters `.` skips never occur and every step
      replaces each character by its lookup. */
  lemma {:induction false} ParsedGenerationPlain(text: string, sys: System, n: nat)
    requires ParseText(text) == Ok(sys) && Resolves(sys, sys.axiom)
    ensures Closed(sys)
    ensures NoLineTerminator(Generation(sys, n))
    ensures forall i :: 0 <= i < |Generation(sys, n)| ==>
      Replacement(sys, Generation(sys, n)[i]) == Lookup(sys, Generation(sys, n)[i])
    decreases n
  {
    ParsedIsClosed(text, sys);
    if n == 0 {
      ParsedAxiomPlain(text, sys);
    } else {
      ParsedGenerationPlain(text, sys, n - 1);
      ParsedRulesPlain(text, sys);
      RewritePlain(sys, Generation(sys, n - 1));
    }
  }

  /** An empty generation stays empty: once a generation is empty, no later
      one is non-empty. */
  lemma {:induction false} EmptyStaysEmpty(sys: System, n: nat, k: nat)
    requires Closed(sys) && Resolves(sys, sys.axiom)
    requires Generation(sys, n) == []
    ensures Generation(sys, n + k) == []
    decreases k
  {
    if k > 0 {
      EmptyStaysEmpty(sys, n, k - 1);
    }
  }

  /** The system with the one rule `X -> F+X-X` and axiom `X`. */
  predicate Sample(sys: System) {
    sys.axiom == "X" && sys.rules == map['X' := "F+X-X"] && sys.constants == {'F', '+', '-'}
  }

  /** Generation 1 of the sample system is the body of its rule. */
  lemma SampleFirst(sys: System)
    requires Sample(sys)
    ensures Closed(sys) && Resolves(sys, sys.axiom)
    ensures Generation(sys, 1) == "F+X-X"
  {
    var body := "F+X-X";
    assert Resolves(sys, body) by {
      forall i | 0 <= i < |body| ensures Replacement(sys, body[i]).Some? {
        assert body[i] in {'F', '+', 'X', '-'};
      }
    }
    assert Closed(sys);
    RewriteChar(sys, 'X');
  }

  /** Constants around two copies of a string: only the copies are
      rewritten. */
  lemma RewriteAround(sys: System, a: string, x: string, m: string)
    requires forall i :: 0 <= i < |a| ==> a[i] !in sys.rules && a[i] in sys.constants
    requires forall i :: 0 <= i < |m| ==> m[i] !in sys.rules && m[i] in sys.constants
    requires Resolves(sys, x)
    ensures Resolves(sys, a + x + m + x)
    ensures Rewrite(sys, a + x + m + x) == a + Rewrite(sys, x) + m + Rewrite(sys, x)
  {
    ConstantsStay(sys, a);
    ConstantsStay(sys, m);
    RewriteAppend(sys, a, x);
    RewriteAppend(sys, a + x, m);
    RewriteAppend(sys, a + x + m, x);
  }

  /** One step from `F+X-X` in the sample system. */
  lemma SampleStep(sys: System)
    requires Sample(sys)
    ensures Resolves(sys, "F+X-X")
    ensures Rewrite(sys, "F+X-X") == "F+F+X-X-F+X-X"
  {
    SampleFirst(sys);
    var a, x, m := "F+", "X", "-";
    assert "F+X-X" == a + x + m + x;
    RewriteChar(sys, 'X');
    RewriteAround(sys, a, x, m);
    assert a + "F+X-X" + m + "F+X-X" == "F+F+X-X-F+X-X";
  }

  /** Generation 2 of the sample system: every `X` of generation 1 is
      replaced by the rule body, and the constants stay. */
  lemma SampleSecond(sys: System)
    requires Sample(sys)
    ensures Closed(sys) && Resolves(sys, sys.axiom)
    ensures Generation(sys, 2) == "F+F+X-X-F+X-X"
  {
    SampleFirst(sys);
    SampleStep(sys);
  }

  // ---------------------------------------------------------------------
  // The cache

  /** The closure `g` returned by `L(system)`, with the `gen` array it
      fills. */
  class Generations {
    const system: System
    var gen: seq<string>

    /** The cache holds generations 0 to |gen| - 1, in order. */
    ghost predicate Valid()
      reads this
    {
      && Closed(system) && Resolves(system, system.axiom)
      && |gen| >= 1
      && forall i :: 0 <= i < |gen| ==> gen[i] == Generation(system, i)
    }

    /** `L(system)`: the cache starts reset. */
    constructor (sys: System)
      requires Closed(sys) && Resolves(sys, sys.axiom)
      ensures Valid()
      ensures system == sys && gen == [sys.axiom]
    {
      system := sys;
      gen := [sys.axiom];
    }

    /** `g.reset()`: back to the axiom alone. */
    method Reset()
      requires Valid()
      modifies this
      ensures Valid()
      ensures gen == [system.axiom]
    {
      gen := [system.axiom];
    }

    /** `g(n)`: appends one generation at a time until generation `n` is
      present and non-empty, and yields it. An empty generation never
      satisfies that test, so it is excluded. */
    method Get(n: nat) returns (s: string)
      requires Valid()
      requires Generation(system, n) != []
      modifies this
      ensures Valid()
      ensures s == Generation(system, n)
      ensures old(gen) <= gen
      ensures |gen| == if n < |old(gen)| then |old(gen)| else n + 1
    {
      while !(n < |gen| && gen[n] != [])
        invariant Valid()
        invariant old(gen) <= gen
        invariant |gen| <= if n < |old(gen)| then |old(gen)| else n + 1
        decreases n + 1 - |gen|
      {
        gen := gen + [Rewrite(system, gen[|gen| - 1])];
      }
      s := gen[n];
    }
  }
}
