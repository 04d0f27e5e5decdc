/** The names of algorithm instances, `template(argument,...,argument)`, and the manager's scan of them. */
module AlgName {
  import opened Options

  const MAX_ATTRS: nat := 32

  predicate IsDigit(c: char) { '0' <= c <= '9' }

  /** isalnum, with the upper letters of the kernel's table. */
  predicate IsAlnum(c: char) {
    || IsDigit(c) || 'A' <= c <= 'Z' || 'a' <= c <= 'z'
    || (0xc0 <= c as int <= 0xff && c as int != 0xd7 && c as int != 0xf7)
  }

  predicate IsWordChar(c: char) { IsAlnum(c) || c == '-' || c == '_' }

  /** The character under a cursor; the string ends with a zero. */
  function At(s: string, p: nat): char { if p < |s| then s[p] else '\0' }

  // The shape of names

  predicate IsWord(w: string) { forall c :: c in w ==> IsWordChar(c) }

  /** `b` closes the `d` parentheses open before it, and all of its own. */
  predicate Closes(b: string, d: nat) {
    if b == "" then d == 0
    else if b[0] == '\0' then false
    else if b[0] == '(' then Closes(b[1..], d + 1)
    else if b[0] == ')' then d > 0 && Closes(b[1..], d - 1)
    else Closes(b[1..], d)
  }

  /** `a` is a word, perhaps empty, with balanced text in parentheses after it. */
  ghost predicate IsCall(a: string) {
    exists n: nat :: CallAt(a, n)
  }

  ghost predicate CallAt(a: string, n: nat) {
    n + 2 <= |a| && IsWord(a[..n]) && a[n] == '(' && a[|a| - 1] == ')' && Closes(a[n + 1..|a| - 1], 0)
  }

  ghost predicate IsArg(a: string) {
    a != "" && (IsWord(a) || IsCall(a))
  }

  ghost predicate AreArgs(args: seq<string>) { forall a :: a in args ==> IsArg(a) }

  function Joined(args: seq<string>): string {
    if args == [] then "" else if |args| == 1 then args[0] else args[0] + "," + Joined(args[1..])
  }

  /** The printed form. */
  function Print(t: string, args: seq<string>): string { t + "(" + Joined(args) + ")" }

  // What the scan computes

  function WordEnd(s: string, p: nat): (e: nat)
    requires p <= |s|
    ensures p <= e <= |s|
    decreases |s| - p
  {
    if p < |s| && IsWordChar(s[p]) then WordEnd(s, p + 1) else p
  }

  /** The parenthesis that closes, with `d` open inside. */
  function CloseOf(s: string, p: nat, d: nat): (q: Option<nat>)
    ensures q.Some? ==> p <= q.value < |s|
    decreases |s| - p
  {
    if p >= |s| || s[p] == '\0' then None
    else if s[p] == '(' then CloseOf(s, p + 1, d + 1)
    else if s[p] != ')' then CloseOf(s, p + 1, d)
    else if d == 0 then Some(p)
    else CloseOf(s, p + 1, d - 1)
  }

  function ArgEnd(s: string, p: nat): (e: Option<nat>)
    requires p <= |s|
    ensures e.Some? ==> p <= e.value <= |s|
  {
    var w := WordEnd(s, p);
    if At(s, w) != '(' then Some(w)
    else
      var q := CloseOf(s, w + 1, 0);
      if q.None? then None else Some(q.value + 1)
  }

  function ArgsFrom(s: string, p: nat, i: nat): Option<seq<string>>
    requires p <= |s|
    decreases |s| - p
  {
    var e := ArgEnd(s, p);
    if e.None? || e.value == p || i + 1 >= MAX_ATTRS then None
    else if At(s, e.value) == ')' then Some([s[p..e.value]])
    else if At(s, e.value) != ',' then None
    else
      var rest := ArgsFrom(s, e.value + 1, i + 1);
      if rest.None? then None else Some([s[p..e.value]] + rest.value)
  }

  function Parsed(s: string): Option<(string, seq<string>)> {
    var p := WordEnd(s, 0);
    if p == 0 || At(s, p) != '(' then None
    else
      var args := ArgsFrom(s, p + 1, 0);
      if args.None? then None else Some((s[..p], args.value))
  }

  // Exactly the printed forms are accepted

  lemma {:induction false} WordEndIff(s: string, p: nat, e: nat)
    requires p <= e <= |s|
    ensures WordEnd(s, p) == e <==> IsWord(s[p..e]) && !IsWordChar(At(s, e))
    decreases |s| - p
  {
    if p < e {
      WordEndIff(s, p + 1, e);
      assert s[p..e] == [s[p]] + s[p + 1..e];
    }
  }

  lemma {:induction false} CloseOfIff(s: string, p: nat, d: nat, q: nat)
    requires p <= q < |s|
    ensures CloseOf(s, p, d) == Some(q) <==> s[q] == ')' && Closes(s[p..q], d)
    decreases q - p
  {
    if p < q {
      assert s[p..q][0] == s[p] && s[p..q][1..] == s[p + 1..q];
      if s[p] == '(' {
        CloseOfIff(s, p + 1, d + 1, q);
      } else if s[p] != ')' {
        CloseOfIff(s, p + 1, d, q);
      } else if d > 0 {
        CloseOfIff(s, p + 1, d - 1, q);
      }
    } else {
      CloseOfLater(s, p, d);
    }
  }

  /** Inside other text, what closes comes later. */
  lemma CloseOfLater(s: string, p: nat, d: nat)
    requires p < |s|
    ensures CloseOf(s, p, d) == Some(p) <==> s[p] == ')' && d == 0
  {}

  lemma Inside(s: string, p: nat, e: nat, a: nat, b: nat)
    requires p <= e <= |s| && a <= b <= e - p
    ensures s[p..e][a..b] == s[p + a..p + b]
  {
    assert forall k :: 0 <= k < b - a ==> s[p..e][a..b][k] == s[p + a + k] == s[p + a..p + b][k];
  }

  /** A call, told from the text around it. */
  lemma CallInside(s: string, p: nat, e: nat, n: nat)
    requires p <= e <= |s|
    ensures CallAt(s[p..e], n) <==>
      p + n + 2 <= e && IsWord(s[p..p + n]) && s[p + n] == '(' && s[e - 1] == ')' && Closes(s[p + n + 1..e - 1], 0)
  {
    hide IsWord, Closes;
    if p + n + 2 <= e {
      Inside(s, p, e, 0, n);
      Inside(s, p, e, n + 1, e - p - 1);
    }
  }

  lemma ArgEndIsArg(s: string, p: nat)
    requires p <= |s|
    ensures ArgEnd(s, p).Some? && ArgEnd(s, p).value > p ==> IsArg(s[p..ArgEnd(s, p).value])
  {
    hide IsWord, Closes;
    var w, e := WordEnd(s, p), ArgEnd(s, p);
    WordEndIff(s, p, w);
    if At(s, w) == '(' && e.Some? {
      CloseOfIff(s, w + 1, 0, e.value - 1);
      CallInside(s, p, e.value, w - p);
    }
  }

  /** At a separator, an argument is scanned whole: its own commas do not end it. */
  lemma ArgIsScanned(s: string, p: nat, e: nat)
    requires p < e < |s| && (s[e] == ',' || s[e] == ')') && IsArg(s[p..e])
    ensures ArgEnd(s, p) == Some(e)
  {
    hide IsWord, Closes;
    var a := s[p..e];
    if IsWord(a) {
      WordEndIff(s, p, e);
    } else {
      var n: nat :| CallAt(a, n);
      CallInside(s, p, e, n);
      WordEndIff(s, p, p + n);
      CloseOfIff(s, p + n + 1, 0, e - 1);
    }
  }

  /** The text after `p` starts with the arguments, separated by commas and closed. */
  ghost predicate Starts(s: string, p: nat, args: seq<string>)
    requires p <= |s|
    decreases |args|
  {
    && args != []
    && var e := p + |args[0]|;
       e < |s| && s[p..e] == args[0] && (if |args| == 1 then s[e] == ')' else s[e] == ',' && Starts(s, e + 1, args[1..]))
  }

  /** What follows the first argument in the printed form. */
  function Rest(args: seq<string>): string
    requires args != []
  {
    if |args| == 1 then [')'] + "" else [','] + (Joined(args[1..]) + ")")
  }

  lemma {:induction false} StartsIsPrefix(s: string, p: nat, args: seq<string>)
    requires p <= |s| && args != []
    ensures Starts(s, p, args) <==> Joined(args) + ")" <= s[p..]
    decreases |args|
  {
    hide Joined;
    var first, e := args[0], p + |args[0]|;
    JoinedRest(args);
    PrefixFirst(first, Rest(args), s[p..]);
    Inside(s, p, |s|, 0, if e <= |s| then |first| else 0);
    if e < |s| && s[p..e] == first {
      SplitAt(s, p, e);
      if |args| == 1 {
        PrefixSplit(first, ')', "", s[e], s[e + 1..]);
      } else {
        StartsIsPrefix(s, e + 1, args[1..]);
        PrefixSplit(first, ',', Joined(args[1..]) + ")", s[e], s[e + 1..]);
      }
    }
  }

  lemma JoinedRest(args: seq<string>)
    requires args != []
    ensures Joined(args) + ")" == args[0] + Rest(args)
  {
    if |args| > 1 {
      assert Joined(args) + ")" == args[0] + ([','] + (Joined(args[1..]) + ")"));
    }
  }

  lemma SplitAt(s: string, p: nat, e: nat)
    requires p <= e < |s|
    ensures s[p..] == s[p..e] + ([s[e]] + s[e + 1..])
  {}

  lemma PrefixFirst(a: string, b: string, t: string)
    requires b != ""
    ensures a + b <= t ==> |a| < |t| && t[..|a|] == a
  {
    if a + b <= t {
      assert t[..|a|] == (a + b)[..|a|];
    }
  }

  lemma PrefixSplit(a: string, c: char, b: string, d: char, t: string)
    ensures a + ([c] + b) <= a + ([d] + t) <==> c == d && b <= t
  {
    var x, y := a + ([c] + b), a + ([d] + t);
    if x <= y {
      assert x[|a|] == c && y[|a|] == d;
      assert x[|a| + 1..] == b && y[|a| + 1..] == t;
    }
  }

  lemma {:induction false} ArgsFromSound(s: string, p: nat, i: nat)
    requires p <= |s|
    ensures var args := ArgsFrom(s, p, i);
      args.Some? ==> args.value != [] && i + |args.value| < MAX_ATTRS && AreArgs(args.value) && Starts(s, p, args.value)
    decreases |s| - p
  {
    hide ArgEnd, IsArg;
    var e := ArgEnd(s, p);
    if ArgsFrom(s, p, i).Some? {
      ArgEndIsArg(s, p);
      if s[e.value] == ',' {
        ArgsFromSound(s, e.value + 1, i + 1);
      }
    }
  }

  lemma {:induction false} ArgsFromComplete(s: string, p: nat, i: nat, args: seq<string>)
    requires p <= |s| && args != [] && i + |args| < MAX_ATTRS && AreArgs(args) && Starts(s, p, args)
    ensures ArgsFrom(s, p, i) == Some(args)
    decreases |args|
  {
    hide ArgEnd;
    assert IsArg(args[0]);
    ArgIsScanned(s, p, p + |args[0]|);
    if |args| == 1 {
      assert args == [s[p..p + |args[0]|]];
    } else {
      assert args == [s[p..p + |args[0]|]] + args[1..];
      ArgsFromComplete(s, p + |args[0]| + 1, i + 1, args[1..]);
    }
  }

  /** The scan accepts exactly the texts that start with a printed form, and takes it apart as it was put together. */
  lemma ParsedIff(s: string, t: string, args: seq<string>)
    ensures Parsed(s) == Some((t, args)) <==>
      t != "" && IsWord(t) && args != [] && |args| < MAX_ATTRS && AreArgs(args) && Print(t, args) <= s
  {
    hide *;
    if Parsed(s) == Some((t, args)) {
      ParsedIsPrinted(s, t, args);
    } else if t != "" && IsWord(t) && args != [] && |args| < MAX_ATTRS && AreArgs(args) && Print(t, args) <= s {
      PrintedIsParsed(s, t, args);
    }
  }

  lemma ParsedIsPrinted(s: string, t: string, args: seq<string>)
    requires Parsed(s) == Some((t, args))
    ensures t != "" && IsWord(t) && args != [] && |args| < MAX_ATTRS && AreArgs(args) && Print(t, args) <= s
  {
    hide IsWord, IsArg, ArgsFrom, Starts, Joined;
    var p := WordEnd(s, 0);
    WordEndIff(s, 0, p);
    assert s[0..p] == s[..p];
    ArgsFromSound(s, p + 1, 0);
    StartsIsPrefix(s, p + 1, args);
    assert s == t + (['('] + s[p + 1..]);
    PrefixSplit(t, '(', Joined(args) + ")", '(', s[p + 1..]);
    assert Print(t, args) == t + (['('] + (Joined(args) + ")"));
  }

  lemma PrintedIsParsed(s: string, t: string, args: seq<string>)
    requires t != "" && IsWord(t) && args != [] && |args| < MAX_ATTRS && AreArgs(args) && Print(t, args) <= s
    ensures Parsed(s) == Some((t, args))
  {
    hide IsWord, IsArg;
    var p, inner := |t|, Joined(args) + ")";
    assert Print(t, args) == t + (['('] + inner);
    assert s[..p] == Print(t, args)[..p] == t && s[0..p] == s[..p];
    assert s[p] == Print(t, args)[p] == '(';
    WordEndIff(s, 0, p);
    assert s == t + (['('] + s[p + 1..]);
    PrefixSplit(t, '(', inner, '(', s[p + 1..]);
    StartsIsPrefix(s, p + 1, args);
    ArgsFromComplete(s, p + 1, 0, args);
  }
}
