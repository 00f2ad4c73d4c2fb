/**
 * String helpers shared by both code generators: Rust's `str::lines()`, the
 * ASCII upper-casing used by `to_pascal_case`, the meaning of `to_pascal_case`
 * itself, and the concatenations the generators build.
 */
module Text {

  predicate StartsWith(s: string, prefix: string) {
    |prefix| <= |s| && s[..|prefix|] == prefix
  }

  /** `n` copies of `unit`, as `std::iter::repeat(unit).take(n).collect()`. */
  function Repeat(unit: string, n: nat): (r: string)
    ensures |r| == n * |unit|
    ensures forall c :: c in r ==> c in unit
  {
    if n == 0 then "" else unit + Repeat(unit, n - 1)
  }

  // ---------------------------------------------------------------- case

  /** `c.to_uppercase().next().unwrap()`, restricted to ASCII letters. */
  function Upper(c: char): (u: char)
    ensures u == '_' <==> c == '_'
    ensures 'a' <= c <= 'z' ==> 'A' <= u <= 'Z'
    ensures !('a' <= c <= 'z') ==> u == c
  {
    if 'a' <= c <= 'z' then (c as int - 32) as char else c
  }

  /** The characters of `s` other than '_', in order. */
  function WithoutUnderscores(s: string): (r: string)
    ensures |r| <= |s|
  {
    if s == [] then [] else (if s[0] == '_' then [] else [s[0]]) + WithoutUnderscores(s[1..])
  }

  /**
   * What `to_pascal_case` produces from `s` when its `uppercase` flag starts
   * as `upper`: an underscore is dropped and raises the flag, any other
   * character is emitted (upper-cased if the flag is up) and lowers it.
   */
  function PascalFrom(s: string, upper: bool): string {
    if s == [] then []
    else if s[0] == '_' then PascalFrom(s[1..], true)
    else [if upper then Upper(s[0]) else s[0]] + PascalFrom(s[1..], false)
  }

  /** The value of `to_pascal_case(s)` (the flag starts raised). */
  function PascalCase(s: string): string {
    PascalFrom(s, true)
  }

  lemma {:induction false} PascalFromShape(s: string, upper: bool)
    ensures |PascalFrom(s, upper)| == |WithoutUnderscores(s)|
    ensures '_' !in PascalFrom(s, upper)
  {
    if s != [] {
      PascalFromShape(s[1..], s[0] == '_');
    }
  }

  lemma {:induction false} WithoutUnderscoresPrefix(s: string, i: nat)
    requires 0 < i <= |s|
    ensures WithoutUnderscores(s[..i])
            == (if s[0] == '_' then [] else [s[0]]) + WithoutUnderscores(s[1..][..i - 1])
  {
    assert s[..i][1..] == s[1..][..i - 1];
  }

  lemma {:induction false} PascalFromAt(s: string, upper: bool, i: nat)
    requires i < |s| && s[i] != '_'
    ensures |WithoutUnderscores(s[..i])| < |PascalFrom(s, upper)|
    ensures PascalFrom(s, upper)[|WithoutUnderscores(s[..i])|]
            == if (i == 0 && upper) || (i > 0 && s[i - 1] == '_') then Upper(s[i]) else s[i]
  {
    if i == 0 {
      assert s[..0] == [];
    } else {
      WithoutUnderscoresPrefix(s, i);
      PascalFromAt(s[1..], s[0] == '_', i - 1);
    }
  }

  /**
   * `to_pascal_case` drops every underscore, keeps every other character in
   * its original order, and upper-cases a character exactly when it is the
   * first character or follows an underscore.
   */
  lemma PascalCaseMeaning(s: string)
    ensures |PascalCase(s)| == |WithoutUnderscores(s)|
    ensures '_' !in PascalCase(s)
    ensures forall i :: 0 <= i < |s| && s[i] != '_' ==>
              |WithoutUnderscores(s[..i])| < |PascalCase(s)| &&
              PascalCase(s)[|WithoutUnderscores(s[..i])|]
              == if i == 0 || s[i - 1] == '_' then Upper(s[i]) else s[i]
  {
    PascalFromShape(s, true);
    forall i | 0 <= i < |s| && s[i] != '_'
      ensures |WithoutUnderscores(s[..i])| < |PascalCase(s)|
      ensures PascalCase(s)[|WithoutUnderscores(s[..i])|]
              == if i == 0 || s[i - 1] == '_' then Upper(s[i]) else s[i]
    {
      PascalFromAt(s, true, i);
    }
  }

  /** One step of `to_pascal_case`'s loop, the `i`-th character consumed. */
  lemma PascalFromStep(text: string, i: nat, upper: bool)
    requires i < |text|
    ensures PascalFrom(text[i..], upper)
            == if text[i] == '_' then PascalFrom(text[i + 1..], true)
               else [if upper then Upper(text[i]) else text[i]] + PascalFrom(text[i + 1..], false)
  {
    assert text[i..][1..] == text[i + 1..];
  }

  // --------------------------------------------------------------- lines

  /** The first index of `c` in `s`, or `|s|` when there is none. */
  function IndexOf(s: string, c: char): (k: nat)
    ensures k <= |s|
    ensures k < |s| ==> s[k] == c
    ensures forall j :: 0 <= j < k ==> s[j] != c
  {
    if s == [] then 0 else if s[0] == c then 0 else 1 + IndexOf(s[1..], c)
  }

  /** Drops one trailing carriage return. */
  function StripCR(l: string): (r: string)
    ensures r == l || r + "\r" == l
  {
    if |l| > 0 && l[|l| - 1] == '\r' then l[..|l| - 1] else l
  }

  /**
   * Rust's `str::lines()`: the pieces between '\n's, each with one trailing
   * '\r' removed, and no empty piece after a final '\n'.
   */
  function Lines(s: string): (ls: seq<string>)
    ensures forall i :: 0 <= i < |ls| ==> '\n' !in ls[i]
    ensures ls == [] <==> s == []
    decreases |s|
  {
    if s == [] then []
    else
      var k := IndexOf(s, '\n');
      if k == |s| then [StripCR(s)]
      else [StripCR(s[..k])] + Lines(s[k + 1..])
  }

  /** `l` with one trailing '\r' removed, for every line `l`. */
  function StripEach(ls: seq<string>): (r: seq<string>)
    ensures |r| == |ls|
  {
    seq(|ls|, i requires 0 <= i < |ls| => StripCR(ls[i]))
  }

  /** `prefix + l` for every line `l`. */
  function Prefixed(prefix: string, ls: seq<string>): (r: seq<string>)
    ensures |r| == |ls|
  {
    seq(|ls|, i requires 0 <= i < |ls| => prefix + ls[i])
  }

  /** Stripping a trailing '\r' never reaches into a prefix free of '\r'. */
  lemma StripCRKeepsPrefix(prefix: string, l: string)
    requires '\r' !in prefix
    ensures StartsWith(StripCR(prefix + l), prefix)
  {
    var s := prefix + l;
    if l != [] {
      assert StripCR(s)[..|prefix|] == prefix;
    } else {
      assert s == prefix;
    }
  }

  // --------------------------------------------------------- concatenation

  function Concat(ss: seq<string>): string {
    if ss == [] then [] else ss[0] + Concat(ss[1..])
  }

  lemma {:induction false} ConcatAppend(a: seq<string>, b: seq<string>)
    ensures Concat(a + b) == Concat(a) + Concat(b)
  {
    if a == [] {
      assert a + b == b;
    } else {
      assert (a + b)[1..] == a[1..] + b;
      ConcatAppend(a[1..], b);
    }
  }

  /** Appending one piece to a concatenation: the step of every generator loop. */
  lemma ConcatSnoc(ss: seq<string>, x: string)
    ensures Concat(ss + [x]) == Concat(ss) + x
  {
    ConcatAppend(ss, [x]);
    assert Concat([x]) == x + Concat([]);
  }

  /** One more piece of a prefix of `ss`. */
  lemma ConcatPrefixStep(ss: seq<string>, i: nat)
    requires i < |ss|
    ensures Concat(ss[..i + 1]) == Concat(ss[..i]) + ss[i]
  {
    assert ss[..i + 1] == ss[..i] + [ss[i]];
    ConcatSnoc(ss[..i], ss[i]);
  }

  lemma AppendAssoc(a: string, b: string, c: string)
    ensures (a + b) + c == a + (b + c)
  {
  }

  /** Every piece followed by '\n'. */
  function NewlineTerminated(ls: seq<string>): (r: seq<string>)
    ensures |r| == |ls|
  {
    seq(|ls|, i requires 0 <= i < |ls| => ls[i] + "\n")
  }

  /** The text whose lines are `ls`, each terminated by '\n'. */
  function Terminated(ls: seq<string>): string {
    Concat(NewlineTerminated(ls))
  }

  lemma TerminatedCons(l: string, ls: seq<string>)
    ensures Terminated([l] + ls) == l + "\n" + Terminated(ls)
  {
    assert NewlineTerminated([l] + ls)[1..] == NewlineTerminated(ls);
  }

  lemma TerminatedSingle(l: string)
    ensures Terminated([l]) == l + "\n"
  {
    TerminatedCons(l, []);
    assert [l] + [] == [l];
    assert Terminated([]) == [];
  }

  lemma TerminatedPair(l: string, m: string)
    ensures Terminated([l, m]) == l + "\n" + (m + "\n")
  {
    TerminatedCons(l, [m]);
    assert [l] + [m] == [l, m];
    TerminatedSingle(m);
  }

  /** A terminated text is empty exactly when it has no lines, and otherwise ends with '\n'. */
  lemma TerminatedShape(ls: seq<string>)
    ensures Terminated(ls) == "" <==> ls == []
    ensures ls != [] ==> Terminated(ls)[|Terminated(ls)| - 1] == '\n'
  {
    if ls == [] {
      assert NewlineTerminated(ls) == [];
    } else {
      var n := |ls|;
      assert ls == ls[..n - 1] + [ls[n - 1]];
      TerminatedAppend(ls[..n - 1], [ls[n - 1]]);
      TerminatedSingle(ls[n - 1]);
    }
  }

  lemma {:induction false} TerminatedAppend(a: seq<string>, b: seq<string>)
    ensures Terminated(a + b) == Terminated(a) + Terminated(b)
  {
    assert NewlineTerminated(a + b) == NewlineTerminated(a) + NewlineTerminated(b);
    ConcatAppend(NewlineTerminated(a), NewlineTerminated(b));
  }

  lemma IndexOfFirst(a: string, c: char, b: string)
    requires c !in a
    ensures IndexOf(a + [c] + b, c) == |a|
  {
    var s := a + [c] + b;
    assert s[|a|] == c;
    assert forall j :: 0 <= j < |a| ==> s[j] == a[j];
  }

  /**
   * Reading back a '\n'-terminated text with `lines()` gives its lines again,
   * each with one trailing '\r' removed.
   */
  lemma {:induction false} LinesOfTerminated(ls: seq<string>)
    requires forall i :: 0 <= i < |ls| ==> '\n' !in ls[i]
    ensures Lines(Terminated(ls)) == StripEach(ls)
  {
    if ls == [] {
      assert Terminated(ls) == [];
    } else {
      LinesOfTerminated(ls[1..]);
      LinesOfTerminatedStep(ls[0], ls[1..]);
      assert [ls[0]] + ls[1..] == ls;
    }
  }

  lemma LinesOfTerminatedStep(l: string, rest: seq<string>)
    requires '\n' !in l
    requires Lines(Terminated(rest)) == StripEach(rest)
    ensures Lines(Terminated([l] + rest)) == StripEach([l] + rest)
  {
    TerminatedCons(l, rest);
    LinesCons(l, Terminated(rest));
    StripEachCons(l, rest);
  }

  lemma StripEachCons(l: string, rest: seq<string>)
    ensures StripEach([l] + rest) == [StripCR(l)] + StripEach(rest)
  {
  }

  /** A first line closed by '\n' is read back on its own. */
  lemma LinesCons(l: string, t: string)
    requires '\n' !in l
    ensures Lines(l + "\n" + t) == [StripCR(l)] + Lines(t)
  {
    var s := l + "\n" + t;
    IndexOfFirst(l, '\n', t);
    assert s[..|l|] == l;
    assert s[|l| + 1..] == t;
  }

  /** Lines that neither contain '\n' nor end with '\r' survive a round trip. */
  lemma LinesOfPlainTerminated(ls: seq<string>)
    requires forall i :: 0 <= i < |ls| ==> '\n' !in ls[i]
    requires forall i :: 0 <= i < |ls| ==> ls[i] == [] || ls[i][|ls[i]| - 1] != '\r'
    ensures Lines(Terminated(ls)) == ls
  {
    LinesOfTerminated(ls);
  }

  /** A line that survives `lines()` unchanged: no '\n' inside, no trailing '\r'. */
  predicate PlainLine(l: string) {
    '\n' !in l && (l == [] || l[|l| - 1] != '\r')
  }

  lemma PlainLinesAppend(a: seq<string>, b: seq<string>)
    requires forall i :: 0 <= i < |a| ==> PlainLine(a[i])
    requires forall i :: 0 <= i < |b| ==> PlainLine(b[i])
    ensures forall i :: 0 <= i < |a + b| ==> PlainLine((a + b)[i])
  {
  }

  /** The pieces of `ls`, each preceded by '\n': the style of the table generators. */
  function NewlineLed(ls: seq<string>): string {
    Concat(Prefixed("\n", ls))
  }

  lemma NewlineLedCons(l: string, ls: seq<string>)
    ensures NewlineLed([l] + ls) == "\n" + l + NewlineLed(ls)
  {
    assert Prefixed("\n", [l] + ls)[1..] == Prefixed("\n", ls);
  }

  lemma NewlineLedTriple(a: string, b: string, c: string)
    ensures NewlineLed([a, b, c]) == "\n" + a + ("\n" + b + ("\n" + c))
  {
    NewlineLedCons(a, [b, c]);
    NewlineLedCons(b, [c]);
    NewlineLedCons(c, []);
    assert [a] + [b, c] == [a, b, c];
    assert [b] + [c] == [b, c];
    assert [c] + [] == [c];
    assert NewlineLed([]) == [];
  }

  lemma NewlineLedAppend(a: seq<string>, b: seq<string>)
    ensures NewlineLed(a + b) == NewlineLed(a) + NewlineLed(b)
  {
    assert Prefixed("\n", a + b) == Prefixed("\n", a) + Prefixed("\n", b);
    ConcatAppend(Prefixed("\n", a), Prefixed("\n", b));
  }

  /** Newline-led text, once closed by a '\n', is an empty line followed by the pieces as lines. */
  lemma {:induction false} NewlineLedIsTerminated(ls: seq<string>)
    ensures NewlineLed(ls) + "\n" == "\n" + Terminated(ls)
  {
    if ls == [] {
      assert Terminated(ls) == [];
    } else {
      var l, rest := ls[0], ls[1..];
      assert ls == [l] + rest;
      NewlineLedCons(l, rest);
      NewlineLedIsTerminated(rest);
      TerminatedCons(l, rest);
      assert "\n" + l + (NewlineLed(rest) + "\n") == "\n" + (l + "\n" + Terminated(rest));
    }
  }

  /** Reading back newline-led plain lines with `lines()`. */
  lemma LinesOfNewlineLed(ls: seq<string>)
    requires forall i :: 0 <= i < |ls| ==> PlainLine(ls[i])
    ensures Lines(NewlineLed(ls) + "\n") == [""] + ls
  {
    NewlineLedIsTerminated(ls);
    TerminatedCons("", ls);
    LinesOfPlainTerminated([""] + ls);
  }
}
