/** The Lindenmayer system behind the tree generator: the axiom "F" is
    rewritten a fixed number of times with F -> GG[+F][**+F][//+F] and
    G -> GG; every other character is copied. */
module LSystem {

  const Axiom: string := "F"
  const Iterations: nat := 5
  const GRule: string := "GG"
  /** GG[+F][**+F][//+F], written as the trunk followed by its three branches. */
  const FRule: string := GRule + "[+F]" + "[**+F]" + "[//+F]"

  /** The F rule is the generator's replacement string, character for character. */
  lemma FRuleText()
    ensures FRule == "GG[+F][**+F][//+F]"
  {
  }

  /** What one character becomes in a rewriting step. */
  function Expand(c: char): string
  {
    if c == 'F' then FRule
    else if c == 'G' then GRule
    else [c]
  }

  /** One rewriting step: every character replaced by its expansion, in order. */
  function Step(s: string): string
  {
    if s == [] then [] else Expand(s[0]) + Step(s[1..])
  }

  /** The string after n rewriting steps from the axiom. */
  function Derive(n: nat): string
  {
    if n == 0 then Axiom else Step(Derive(n - 1))
  }

  // ---------------------------------------------------------------------
  // The rewriting loops of the generator

  /** The inner loop: `temp` is built from the expansions of `axiom`'s characters. */
  method RewriteStep(axiom: string) returns (temp: string)
    ensures temp == Step(axiom)
  {
    temp := "";
    for j := 0 to |axiom|
      invariant temp == Step(axiom[..j])
    {
      var c := axiom[j];
      StepSnoc(axiom[..j], c);
      assert axiom[..j + 1] == axiom[..j] + [c];
      if c == 'F' {
        temp := temp + FRule;
        continue;
      }
      if c == 'G' {
        temp := temp + GRule;
        continue;
      }
      temp := temp + [c];
    }
    assert axiom[..|axiom|] == axiom;
  }

  /** The outer loop: the axiom rewritten `Iterations` times. */
  method Rewrite() returns (axiom: string)
    ensures axiom == Derive(Iterations)
  {
    axiom := Axiom;
    for i := 0 to Iterations
      invariant axiom == Derive(i)
    {
      axiom := RewriteStep(axiom);
    }
  }

  // ---------------------------------------------------------------------
  // Step is a homomorphism: it rewrites character by character

  lemma {:induction false} StepConcat(a: string, b: string)
    ensures Step(a + b) == Step(a) + Step(b)
  {
    if a == [] {
      assert a + b == b;
    } else {
      assert (a + b)[0] == a[0];
      assert (a + b)[1..] == a[1..] + b;
      StepConcat(a[1..], b);
    }
  }

  lemma StepSnoc(s: string, c: char)
    ensures Step(s + [c]) == Step(s) + Expand(c)
  {
    StepConcat(s, [c]);
    assert [c][1..] == [];
  }

  /** Characters other than F and G are copied unchanged and in order. */
  lemma {:induction false} StepCopiesConstants(s: string)
    requires forall i :: 0 <= i < |s| ==> s[i] != 'F' && s[i] != 'G'
    ensures Step(s) == s
  {
    if s != [] {
      StepCopiesConstants(s[1..]);
      assert s == [s[0]] + s[1..];
    }
  }

  // ---------------------------------------------------------------------
  // Alphabet closure

  predicate IsSymbol(c: char)
  {
    c == 'F' || c == 'G' || c == '[' || c == ']' || c == '+' || c == '*' || c == '/'
  }

  predicate OverAlphabet(s: string)
  {
    forall i :: 0 <= i < |s| ==> IsSymbol(s[i])
  }

  lemma {:induction false} StepClosed(s: string)
    requires OverAlphabet(s)
    ensures OverAlphabet(Step(s))
  {
    if s != [] {
      StepClosed(s[1..]);
      var e := Expand(s[0]);
      assert OverAlphabet(e);
      assert Step(s) == e + Step(s[1..]);
    }
  }

  /** Every string the rules derive from the axiom uses only F, G, [, ], +, * and /. */
  lemma {:induction false} DeriveClosed(n: nat)
    ensures OverAlphabet(Derive(n))
  {
    if n > 0 {
      DeriveClosed(n - 1);
      StepClosed(Derive(n - 1));
    }
  }

  // ---------------------------------------------------------------------
  // Counting symbols

  function Count(s: string, c: char): nat
  {
    if s == [] then 0 else (if s[0] == c then 1 else 0) + Count(s[1..], c)
  }

  lemma {:induction false} CountConcat(a: string, b: string, c: char)
    ensures Count(a + b, c) == Count(a, c) + Count(b, c)
  {
    if a == [] {
      assert a + b == b;
    } else {
      assert (a + b)[0] == a[0];
      assert (a + b)[1..] == a[1..] + b;
      CountConcat(a[1..], b, c);
    }
  }

  /** Brackets do not count towards a symbol other than a bracket. */
  lemma CountBranches(g: string, x: string, y: string, z: string, c: char)
    requires c != '[' && c != ']'
    ensures Count(g + ("[" + x + "]") + ("[" + y + "]") + ("[" + z + "]"), c)
      == Count(g, c) + Count(x, c) + Count(y, c) + Count(z, c)
  {
    var a, b, d := "[" + x + "]", "[" + y + "]", "[" + z + "]";
    forall w | w in {x, y, z}
      ensures Count("[" + w + "]", c) == Count(w, c)
    {
      CountConcat("[", w, c);
      CountConcat("[" + w, "]", c);
    }
    CountConcat(g, a, c);
    CountConcat(g + a, b, c);
    CountConcat(g + a + b, d, c);
  }

  lemma FRuleCountF()
    ensures Count(FRule, 'F') == 3
  {
    CountBranches(GRule, "+F", "**+F", "//+F", 'F');
    assert "[" + "+F" + "]" == "[+F]" && "[" + "**+F" + "]" == "[**+F]" && "[" + "//+F" + "]" == "[//+F]";
    assert Count("+F", 'F') == 1 && Count("**+F", 'F') == 1 && Count("//+F", 'F') == 1;
  }

  lemma FRuleCountG()
    ensures Count(FRule, 'G') == 2
  {
    CountBranches(GRule, "+F", "**+F", "//+F", 'G');
    assert "[" + "+F" + "]" == "[+F]" && "[" + "**+F" + "]" == "[**+F]" && "[" + "//+F" + "]" == "[//+F]";
    assert Count("+F", 'G') == 0 && Count("**+F", 'G') == 0 && Count("//+F", 'G') == 0;
  }

  /** What one character's expansion contributes to the counts of F and G. */
  lemma ExpandCounts(c: char)
    ensures Count(Expand(c), 'F') == (if c == 'F' then 3 else 0)
    ensures Count(Expand(c), 'G') == (if c == 'F' || c == 'G' then 2 else 0)
  {
    if c == 'F' {
      FRuleCountF();
      FRuleCountG();
    } else if c != 'G' {
      assert [c][1..] == [];
    }
  }

  /** Each F yields three Fs and G yields none. */
  lemma {:induction false} StepCountF(s: string)
    ensures Count(Step(s), 'F') == 3 * Count(s, 'F')
  {
    if s != [] {
      StepCountF(s[1..]);
      CountConcat(Expand(s[0]), Step(s[1..]), 'F');
      ExpandCounts(s[0]);
    }
  }

  /** Each F yields two Gs, each G yields two Gs. */
  lemma {:induction false} StepCountG(s: string)
    ensures Count(Step(s), 'G') == 2 * Count(s, 'G') + 2 * Count(s, 'F')
  {
    if s != [] {
      StepCountG(s[1..]);
      CountConcat(Expand(s[0]), Step(s[1..]), 'G');
      ExpandCounts(s[0]);
    }
  }

  function Pow3(n: nat): nat
  {
    if n == 0 then 1 else 3 * Pow3(n - 1)
  }

  /** After n rewriting steps the string holds 3^n Fs. */
  lemma {:induction false} DeriveCountF(n: nat)
    ensures Count(Derive(n), 'F') == Pow3(n)
  {
    if n > 0 {
      DeriveCountF(n - 1);
      StepCountF(Derive(n - 1));
    }
  }

  /** The generated tree string has 243 Fs. */
  lemma GeneratedCountF()
    ensures Count(Derive(Iterations), 'F') == 243
  {
    DeriveCountF(Iterations);
  }

  // ---------------------------------------------------------------------
  // Bracket balance

  /** The change of the stack depth caused by one character. */
  function Delta(c: char): int
  {
    if c == '[' then 1 else if c == ']' then -1 else 0
  }

  /** The net change of the stack depth caused by a string. */
  function Net(s: string): int
  {
    if s == [] then 0 else Delta(s[0]) + Net(s[1..])
  }

  /** Reading s from stack depth `depth`, no ] meets an empty stack. */
  predicate NeverUnderflows(s: string, depth: int)
  {
    s == [] || ((s[0] == ']' ==> depth > 0) && NeverUnderflows(s[1..], depth + Delta(s[0])))
  }

  predicate Balanced(s: string)
  {
    NeverUnderflows(s, 0) && Net(s) == 0
  }

  lemma {:induction false} NetConcat(a: string, b: string)
    ensures Net(a + b) == Net(a) + Net(b)
  {
    if a == [] {
      assert a + b == b;
    } else {
      assert (a + b)[0] == a[0];
      assert (a + b)[1..] == a[1..] + b;
      NetConcat(a[1..], b);
    }
  }

  lemma {:induction false} UnderflowConcat(a: string, b: string, depth: int)
    ensures NeverUnderflows(a + b, depth) <==> NeverUnderflows(a, depth) && NeverUnderflows(b, depth + Net(a))
  {
    if a == [] {
      assert a + b == b;
    } else {
      assert (a + b)[0] == a[0];
      assert (a + b)[1..] == a[1..] + b;
      UnderflowConcat(a[1..], b, depth + Delta(a[0]));
    }
  }

  /** The depth reached after reading s from `depth` never drops below zero when s never underflows. */
  lemma {:induction false} UnderflowFreeDepth(s: string, depth: int)
    requires depth >= 0 && NeverUnderflows(s, depth)
    ensures depth + Net(s) >= 0
  {
    if s != [] {
      UnderflowFreeDepth(s[1..], depth + Delta(s[0]));
    }
  }

  predicate BracketFree(s: string)
  {
    forall i :: 0 <= i < |s| ==> s[i] != '[' && s[i] != ']'
  }

  lemma {:induction false} BracketFreeIsNeutral(s: string, depth: int)
    requires BracketFree(s)
    ensures Net(s) == 0 && NeverUnderflows(s, depth)
  {
    if s != [] {
      BracketFreeIsNeutral(s[1..], depth);
    }
  }

  /** A bracket-free string between [ and ] is balanced at any depth. */
  lemma Bracketed(x: string, depth: int)
    requires BracketFree(x) && depth >= 0
    ensures Net("[" + x + "]") == 0 && NeverUnderflows("[" + x + "]", depth)
  {
    BracketFreeIsNeutral(x, depth + 1);
    NetConcat("[", x);
    NetConcat("[" + x, "]");
    UnderflowConcat("[", x, depth);
    UnderflowConcat("[" + x, "]", depth);
  }

  /** A bracket-free trunk followed by three bracket-free branches is balanced. */
  lemma ThreeBranches(g: string, x: string, y: string, z: string, depth: int)
    requires BracketFree(g) && BracketFree(x) && BracketFree(y) && BracketFree(z) && depth >= 0
    ensures var s := g + ("[" + x + "]") + ("[" + y + "]") + ("[" + z + "]");
      Net(s) == 0 && NeverUnderflows(s, depth)
  {
    var a, b, d := "[" + x + "]", "[" + y + "]", "[" + z + "]";
    BracketFreeIsNeutral(g, depth);
    Bracketed(x, depth);
    Bracketed(y, depth);
    Bracketed(z, depth);
    NetConcat(g, a);
    NetConcat(g + a, b);
    NetConcat(g + a + b, d);
    UnderflowConcat(g, a, depth);
    UnderflowConcat(g + a, b, depth);
    UnderflowConcat(g + a + b, d, depth);
  }

  lemma FRuleBalanced(depth: int)
    requires depth >= 0
    ensures Net(FRule) == 0 && NeverUnderflows(FRule, depth)
  {
    ThreeBranches(GRule, "+F", "**+F", "//+F", depth);
    assert GRule + ("[" + "+F" + "]") + ("[" + "**+F" + "]") + ("[" + "//+F" + "]") == FRule;
  }

  lemma SingleBalance(c: char, depth: int)
    requires c != '[' && c != ']'
    ensures Net([c]) == 0 && NeverUnderflows([c], depth)
  {
    assert [c][1..] == [];
  }

  lemma ExpandBalanced(c: char, depth: int)
    requires depth >= 0
    ensures Net(Expand(c)) == Delta(c)
    ensures NeverUnderflows(Expand(c), depth) <==> NeverUnderflows([c], depth)
  {
    if c == 'F' {
      FRuleBalanced(depth);
      SingleBalance(c, depth);
    } else if c == 'G' {
      BracketFreeIsNeutral(GRule, depth);
      SingleBalance(c, depth);
    }
  }

  /** Rewriting keeps the net depth of a string. */
  lemma {:induction false} StepKeepsNet(s: string)
    ensures Net(Step(s)) == Net(s)
  {
    if s != [] {
      StepKeepsNet(s[1..]);
      ExpandBalanced(s[0], 0);
      NetConcat(Expand(s[0]), Step(s[1..]));
    }
  }

  /** Rewriting neither creates nor removes an underflowing ]. */
  lemma {:induction false} StepKeepsUnderflow(s: string, depth: int)
    requires depth >= 0
    ensures NeverUnderflows(Step(s), depth) <==> NeverUnderflows(s, depth)
  {
    if s != [] {
      var c := s[0];
      ExpandBalanced(c, depth);
      UnderflowConcat(Expand(c), Step(s[1..]), depth);
      if depth + Delta(c) >= 0 {
        StepKeepsUnderflow(s[1..], depth + Delta(c));
      } else {
        assert c == ']' && depth == 0;
        assert !NeverUnderflows(s, depth);
        assert !NeverUnderflows(Expand(c), depth);
      }
    }
  }

  /** Every derived string is balanced: its brackets match and none closes an empty stack. */
  lemma {:induction false} DeriveBalanced(n: nat)
    ensures Balanced(Derive(n))
  {
    if n == 0 {
      assert Axiom[1..] == [];
    } else {
      DeriveBalanced(n - 1);
      StepKeepsNet(Derive(n - 1));
      StepKeepsUnderflow(Derive(n - 1), 0);
    }
  }
}
