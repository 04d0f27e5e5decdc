/** The scan of cryptomgr_schedule_probe, as it moves a cursor, and names that contain names. */
module AlgScan {
  import opened Options
  import opened AlgName

  /** An argument as it is handed on: a name, or a number. */
  datatype Attr = Alg(name: string) | U32(num: nat)

  // Numbers

  /** simple_strtoul from `k`; the sum wraps, and 32 bits of it are kept in the end. */
  function Strtoul(w: string, k: nat, base: nat, acc: nat): nat
    requires k <= |w|
    decreases |w| - k
  {
    if k == |w| || !IsDigit(w[k]) || w[k] as int - '0' as int >= base then acc
    else Strtoul(w, k + 1, base, acc * base + (w[k] as int - '0' as int))
  }

  /** A leading zero asks for octal. */
  function NumberOf(w: string): nat {
    Strtoul(w, 0, if w != "" && w[0] == '0' then 8 else 10, 0) % 0x1_0000_0000
  }

  function Digit(d: nat): char
    requires d < 10
  {
    ('0' as int + d) as char
  }

  /** The decimal form. */
  function Decimal(n: nat): (w: string)
    ensures w != ""
  {
    if n < 10 then [Digit(n)] else Decimal(n / 10) + [Digit(n % 10)]
  }

  lemma {:induction false} StrtoulAppend(w: string, c: char, k: nat, acc: nat)
    requires k <= |w| && IsDigit(c) && forall i :: 0 <= i < |w| ==> IsDigit(w[i])
    ensures Strtoul(w + [c], k, 10, acc) == Strtoul(w, k, 10, acc) * 10 + (c as int - '0' as int)
    decreases |w| - k
  {
    if k < |w| {
      StrtoulAppend(w, c, k + 1, acc * 10 + (w[k] as int - '0' as int));
    }
  }

  lemma {:induction false} DecimalRead(n: nat)
    ensures forall i :: 0 <= i < |Decimal(n)| ==> IsDigit(Decimal(n)[i])
    ensures n > 0 ==> Decimal(n)[0] != '0'
    ensures Strtoul(Decimal(n), 0, 10, 0) == n
  {
    if n >= 10 {
      DecimalRead(n / 10);
      StrtoulAppend(Decimal(n / 10), Digit(n % 10), 0, 0);
    }
  }

  /** A 32-bit number printed in decimal is read back. */
  lemma NumberReadBack(n: nat)
    requires n < 0x1_0000_0000
    ensures AttrOf(Decimal(n)) == U32(n)
  {
    DecimalRead(n);
    assert AllDigits(Decimal(n));
    if n == 0 {
      var w := Decimal(0);
      assert w == ['0'] && Strtoul(w, 1, 8, 0) == 0;
    }
  }

  // The attributes

  predicate AllDigits(w: string) { forall c :: c in w ==> IsDigit(c) }

  function AttrOf(a: string): Attr { if AllDigits(a) then U32(NumberOf(a)) else Alg(a) }

  function AttrsOf(args: seq<string>): seq<Attr> { seq(|args|, i requires 0 <= i < |args| => AttrOf(args[i])) }

  // The scan

  /** Over the characters of a word; `notnum` tells whether one of them is not a digit. */
  method ScanWord(s: string, p0: nat) returns (p: nat, notnum: bool)
    requires p0 <= |s|
    ensures p == WordEnd(s, p0) && (notnum <==> !AllDigits(s[p0..p]))
  {
    p, notnum := p0, false;
    while IsWordChar(At(s, p))
      invariant p0 <= p <= |s| && WordEnd(s, p0) == WordEnd(s, p)
      invariant notnum <==> !AllDigits(s[p0..p])
      decreases |s| - p
    {
      notnum := notnum || !IsDigit(s[p]);
      assert s[p0..p + 1] == s[p0..p] + [s[p]];
      p := p + 1;
    }
  }

  /** From an opening parenthesis to the one that closes it. */
  method ScanCall(s: string, p0: nat) returns (p: Option<nat>)
    requires p0 < |s|
    ensures p == CloseOf(s, p0 + 1, 0)
  {
    var q, recursion := p0, 0;
    while true
      invariant p0 <= q < |s| && recursion >= 0
      invariant CloseOf(s, p0 + 1, 0) == CloseOf(s, q + 1, recursion)
      decreases |s| - q
    {
      q := q + 1;
      if At(s, q) == '\0' {
        return None;
      }
      if s[q] == '(' {
        recursion := recursion + 1;
      } else if s[q] == ')' {
        if recursion == 0 {
          return Some(q);
        }
        recursion := recursion - 1;
      }
    }
  }

  /** One argument, and its end. */
  method ScanArg(s: string, p0: nat) returns (r: Option<(nat, Attr)>)
    requires p0 <= |s|
    ensures r.None? <==> ArgEnd(s, p0).None? || ArgEnd(s, p0).value == p0
    ensures r.Some? ==> ArgEnd(s, p0) == Some(r.value.0) && r.value.1 == AttrOf(s[p0..r.value.0])
  {
    var p, notnum := ScanWord(s, p0);
    if At(s, p) == '(' {
      var q := ScanCall(s, p);
      if q.None? {
        return None;
      }
      assert s[p] in s[p0..q.value + 1];
      p, notnum := q.value + 1, true;
    }
    if p == p0 {
      return None;
    }
    if notnum {
      return Some((p, Alg(s[p0..p])));
    } else {
      return Some((p, U32(NumberOf(s[p0..p]))));
    }
  }

  ghost function Append(done: seq<string>, more: Option<seq<string>>): Option<seq<string>> {
    if more.None? then None else Some(done + more.value)
  }

  /** The arguments, up to the closing parenthesis. */
  method ScanArgs(s: string, p0: nat) returns (r: Option<seq<Attr>>)
    requires p0 < |s|
    ensures var args := ArgsFrom(s, p0 + 1, 0); r == if args.None? then None else Some(AttrsOf(args.value))
  {
    hide ArgEnd, ArgsFrom, AttrOf, AttrsOf;
    var p, attrs := p0, [];
    ghost var done: seq<string> := [];
    ghost var all := ArgsFrom(s, p0 + 1, 0);
    NoneDone(all);
    while true
      invariant p < |s| && |done| == |attrs| < MAX_ATTRS && attrs == AttrsOf(done)
      invariant all == Append(done, ArgsFrom(s, p + 1, |done|))
      decreases |s| - p
    {
      ArgsStep(s, p + 1, done);
      var a := ScanArg(s, p + 1);
      if a.None? {
        return None;
      }
      done := done + [s[p + 1..a.value.0]];
      p, attrs := a.value.0, attrs + [a.value.1];
      if |attrs| >= MAX_ATTRS {
        return None;
      }
      if At(s, p) == ')' {
        return Some(attrs);
      }
      if At(s, p) != ',' {
        return None;
      }
    }
  }

  lemma NoneDone(all: Option<seq<string>>)
    ensures AttrsOf([]) == [] && Append([], all) == all
  {
    assert all.Some? ==> [] + all.value == all.value;
  }

  /** What one argument leaves to scan. */
  lemma ArgsStep(s: string, p: nat, done: seq<string>)
    requires p <= |s|
    ensures ArgEnd(s, p).None? || ArgEnd(s, p).value == p || |done| + 1 >= MAX_ATTRS ==> ArgsFrom(s, p, |done|).None?
    ensures ArgEnd(s, p).Some? ==>
      var e := ArgEnd(s, p).value;
      var done' := done + [s[p..e]];
      && AttrsOf(done') == AttrsOf(done) + [AttrOf(s[p..e])]
      && (e > p && |done'| < MAX_ATTRS ==>
            Append(done, ArgsFrom(s, p, |done|)) ==
            if At(s, e) == ')' then Some(done') else if At(s, e) == ',' then Append(done', ArgsFrom(s, e + 1, |done'|)) else None)
  {
    hide ArgEnd, AttrOf;
    if ArgEnd(s, p).Some? {
      var e := ArgEnd(s, p).value;
      if At(s, e) == ',' {
        var more := ArgsFrom(s, e + 1, |done| + 1);
        assert more.Some? ==> done + ([s[p..e]] + more.value) == done + [s[p..e]] + more.value;
      }
    }
  }

  /** The name parser of cryptomgr_schedule_probe. */
  method Parse(s: string) returns (r: Option<(string, seq<Attr>)>)
    ensures r == if Parsed(s).None? then None else Some((Parsed(s).value.0, AttrsOf(Parsed(s).value.1)))
  {
    var p, _ := ScanWord(s, 0);
    if p == 0 || At(s, p) != '(' {
      return None;
    }
    var attrs := ScanArgs(s, p);
    return if attrs.None? then None else Some((s[..p], attrs.value));
  }

  /** A printed name is parsed into its template and its arguments. */
  method RoundTrip(t: string, args: seq<string>) returns (r: Option<(string, seq<Attr>)>)
    requires t != "" && IsWord(t) && args != [] && |args| < MAX_ATTRS && AreArgs(args)
    ensures r == Some((t, AttrsOf(args)))
  {
    ParsedIff(Print(t, args), t, args);
    r := Parse(Print(t, args));
  }

  // Names that contain names

  datatype Name = Word(w: string) | Call(t: string, args: seq<Name>)

  ghost predicate Valid(n: Name) {
    match n
    case Word(w) => w != "" && IsWord(w)
    case Call(t, args) => t != "" && IsWord(t) && args != [] && |args| < MAX_ATTRS && forall a :: a in args ==> Valid(a)
  }

  function Text(n: Name): string {
    match n
    case Word(w) => w
    case Call(t, args) => Print(t, seq(|args|, i requires 0 <= i < |args| => Text(args[i])))
  }

  function Texts(ns: seq<Name>): (r: seq<string>)
    ensures |r| == |ns|
  {
    seq(|ns|, i requires 0 <= i < |ns| => Text(ns[i]))
  }

  lemma {:induction false} ClosesAppend(a: string, b: string, d: nat, e: nat)
    requires Closes(a, d) && Closes(b, e)
    ensures Closes(a + b, d + e)
  {
    if a == "" {
      assert a + b == b;
    } else {
      assert (a + b)[1..] == a[1..] + b;
      ClosesAppend(a[1..], b, if a[0] == '(' then d + 1 else if a[0] == ')' then d - 1 else d, e);
    }
  }

  lemma {:induction false} WordCloses(w: string)
    requires IsWord(w)
    ensures Closes(w, 0)
  {
    if w != "" {
      assert IsWordChar(w[0]);
      WordCloses(w[1..]);
    }
  }

  /** Arguments are balanced. */
  lemma ArgCloses(a: string)
    requires IsArg(a)
    ensures Closes(a, 0)
  {
    hide IsWord, Closes;
    if IsWord(a) {
      WordCloses(a);
    } else {
      var n: nat :| CallAt(a, n);
      CallCloses(a, n);
    }
  }

  lemma CallCloses(a: string, n: nat)
    requires CallAt(a, n)
    ensures Closes(a, 0)
  {
    hide IsWord, Closes;
    var inner := a[n + 1..|a| - 1];
    var call := ['('] + (inner + [')']);
    assert a == a[..n] + call;
    Wrapped(inner);
    WordCloses(a[..n]);
    ClosesAppend(a[..n], call, 0, 0);
  }

  lemma Wrapped(b: string)
    requires Closes(b, 0)
    ensures Closes(['('] + (b + [')']), 0)
  {
    assert Closes([')'], 1) by {
      assert [')'][1..] == "";
    }
    ClosesAppend(b, [')'], 0, 1);
    assert (['('] + (b + [')']))[1..] == b + [')'];
  }

  lemma {:induction false} JoinedCloses(args: seq<string>)
    requires AreArgs(args)
    ensures Closes(Joined(args), 0)
  {
    hide IsArg, Closes;
    if args == [] {
      WordCloses("");
    } else {
      ArgCloses(args[0]);
      if |args| > 1 {
        JoinedCloses(args[1..]);
        CommaCloses(Joined(args[1..]));
        ClosesAppend(args[0], [','] + Joined(args[1..]), 0, 0);
        assert Joined(args) == args[0] + ([','] + Joined(args[1..]));
      }
    }
  }

  lemma CommaCloses(b: string)
    requires Closes(b, 0)
    ensures Closes([','] + b, 0)
  {
    assert ([','] + b)[1..] == b;
  }

  /** A printed name can be an argument itself. */
  lemma PrintIsArg(t: string, args: seq<string>)
    requires IsWord(t) && AreArgs(args)
    ensures IsArg(Print(t, args))
  {
    hide IsArg, Closes;
    var a, n := Print(t, args), |t|;
    JoinedCloses(args);
    assert a[..n] == t && a[n + 1..|a| - 1] == Joined(args);
    assert CallAt(a, n);
    PrintIsCall(a, n);
  }

  lemma PrintIsCall(a: string, n: nat)
    requires CallAt(a, n)
    ensures IsArg(a)
  {}

  lemma {:induction false} TextIsArg(n: Name)
    requires Valid(n)
    ensures IsArg(Text(n))
    decreases n
  {
    if n.Call? {
      forall a | a in Texts(n.args)
        ensures IsArg(a)
      {
        var i :| 0 <= i < |n.args| && a == Text(n.args[i]);
        TextIsArg(n.args[i]);
      }
      PrintIsArg(n.t, Texts(n.args));
    }
  }

  /** Parsing takes a name apart one level. */
  lemma ParsedText(n: Name)
    requires Valid(n) && n.Call?
    ensures Parsed(Text(n)) == Some((n.t, Texts(n.args)))
  {
    forall a | a in Texts(n.args)
      ensures IsArg(a)
    {
      var i :| 0 <= i < |n.args| && a == Text(n.args[i]);
      TextIsArg(n.args[i]);
    }
    ParsedIff(Text(n), n.t, Texts(n.args));
  }

  /** Different names have different texts. */
  lemma {:induction false} TextInjective(m: Name, n: Name)
    requires Valid(m) && Valid(n) && Text(m) == Text(n)
    ensures m == n
    decreases m
  {
    NotBoth(m);
    NotBoth(n);
    if m.Call? && n.Call? {
      ParsedText(m);
      ParsedText(n);
      forall i | 0 <= i < |m.args|
        ensures m.args[i] == n.args[i]
      {
        assert Texts(m.args)[i] == Texts(n.args)[i];
        TextInjective(m.args[i], n.args[i]);
      }
    }
  }

  /** The text of a call is no word. */
  lemma NotBoth(n: Name)
    requires Valid(n)
    ensures n.Word? <==> IsWord(Text(n))
  {
    if n.Call? {
      assert Text(n)[|n.t|] == '(' && Text(n)[|n.t|] in Text(n);
    }
  }
}
