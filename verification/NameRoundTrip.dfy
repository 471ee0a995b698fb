/**
 * The parser undoes the printers, and what it returns is what the text says.
 */
module NameRoundTrip {
  import opened NameModel

  function Shift(r: Option<nat>, n: nat): Option<nat> { if r.Some? then Some(r.value + n) else None }

  lemma {:induction false} IdLenRun(w: string, rest: string)
    requires Ident(w) && (rest == "" || !IdChar(rest[0]))
    ensures IdLen(w + rest) == |w|
  {
    if w == "" {
      assert w + rest == rest;
    } else {
      assert (w + rest)[1..] == w[1..] + rest;
      IdLenRun(w[1..], rest);
    }
  }

  // Name characters and commas do not change the depth.
  lemma {:induction false} SkipFlat(w: string, rest: string, d: nat)
    requires forall i :: 0 <= i < |w| ==> w[i] != '(' && w[i] != ')'
    ensures CloseLen(w + rest, d) == Shift(CloseLen(rest, d), |w|)
  {
    if w == "" {
      assert w + rest == rest;
    } else {
      assert (w + rest)[1..] == w[1..] + rest;
      SkipFlat(w[1..], rest, d);
    }
  }

  lemma Step(c: char, rest: string, d: nat)
    requires !(c == ')' && d == 0)
    ensures CloseLen([c] + rest, d) ==
            Shift(CloseLen(rest, if c == '(' then d + 1 else if c == ')' then d - 1 else d), 1)
  {
    assert ([c] + rest)[1..] == rest;
  }

  // A printed name is balanced: scanning for a closing parenthesis passes over it.
  lemma {:induction false} SkipName(n: Name, rest: string, d: nat)
    requires Valid(n)
    ensures CloseLen(Print(n) + rest, d) == Shift(CloseLen(rest, d), |Print(n)|)
    decreases n
  {
    match n
    case Plain(id) => SkipFlat(id, rest, d);
    case Instance(id, args) =>
      var inner := PrintAll(args);
      assert Print(n) + rest == id + (['('] + (inner + ([')'] + rest)));
      SkipFlat(id, ['('] + (inner + ([')'] + rest)), d);
      Step('(', inner + ([')'] + rest), d);
      SkipAll(args, [')'] + rest, d + 1);
      Step(')', rest, d + 1);
  }

  lemma {:induction false} SkipAll(args: seq<Name>, rest: string, d: nat)
    requires forall a :: a in args ==> Valid(a)
    ensures CloseLen(PrintAll(args) + rest, d) == Shift(CloseLen(rest, d), |PrintAll(args)|)
    decreases args
  {
    if args == [] {
      assert PrintAll(args) + rest == rest;
    } else if |args| == 1 {
      SkipName(args[0], rest, d);
    } else {
      var tail := PrintAll(args[1..]) + rest;
      assert PrintAll(args) + rest == Print(args[0]) + ([','] + tail);
      SkipName(args[0], [','] + tail, d);
      Step(',', tail, d);
      SkipAll(args[1..], rest, d);
    }
  }

  lemma PrintHead(n: Name, rest: string)
    requires Valid(n) && rest != "" && (rest[0] == ',' || rest[0] == ')')
    ensures IdLen(Print(n) + rest) == |n.id| && Print(n) != ""
  {
    match n
    case Plain(id) => IdLenRun(id, rest);
    case Instance(id, args) =>
      var tail := "(" + PrintAll(args) + ")" + rest;
      assert Print(n) + rest == id + tail;
      IdLenRun(id, tail);
  }

  lemma ArgLenPrint(n: Name, rest: string)
    requires Valid(n) && rest != "" && (rest[0] == ',' || rest[0] == ')')
    ensures ArgLen(Print(n) + rest) == Some(|Print(n)|)
  {
    PrintHead(n, rest);
    if n.Instance? {
      var t := Print(n) + rest;
      var inner := PrintAll(n.args);
      assert t[|n.id| + 1..] == inner + ([')'] + rest);
      SkipAll(n.args, [')'] + rest, 0);
      assert CloseLen([')'] + rest, 0) == Some(1);
    }
  }

  lemma Cut(a: string, c: char, b: string)
    ensures var t := a + ([c] + b); t[..|a|] == a && t[|a| + 1..] == b && t[|a|] == c && |t| > |a|
  {
  }

  // One step of the parser on an argument followed by a delimiter
  lemma ParseStep(n: Name, c: char, tail: string, i: nat)
    requires Valid(n) && (c == ',' || c == ')')
    ensures ParseArgs(Print(n) + ([c] + tail), i) ==
            if i + 1 >= MAX_ATTRS then None
            else if c == ')' then Some([ArgOf(Print(n))])
            else if ParseArgs(tail, i + 1).None? then None
            else Some([ArgOf(Print(n))] + ParseArgs(tail, i + 1).value)
  {
    hide ArgLen, Print, ArgOf;
    ArgLenPrint(n, [c] + tail);
    PrintHead(n, [c] + tail);
    Cut(Print(n), c, tail);
  }

  // Within the limit the printed arguments come back; beyond it the parser refuses.
  lemma {:induction false} ParseArgsPrint(args: seq<Name>, rest: string, i: nat)
    requires args != [] && forall a :: a in args ==> Valid(a)
    ensures ParseArgs(PrintAll(args) + ([')'] + rest), i) == if i + |args| < MAX_ATTRS then Some(ArgsOf(args)) else None
    decreases |args|
  {
    hide ParseArgs, Print, ArgOf;
    if |args| == 1 {
      ParseStep(args[0], ')', rest, i);
      assert ArgsOf(args) == [ArgOf(Print(args[0]))];
    } else {
      var tail := PrintAll(args[1..]) + ([')'] + rest);
      assert PrintAll(args) + ([')'] + rest) == Print(args[0]) + ([','] + tail);
      ParseStep(args[0], ',', tail, i);
      ParseArgsPrint(args[1..], rest, i + 1);
      assert ArgsOf(args) == [ArgOf(Print(args[0]))] + ArgsOf(args[1..]);
    }
  }

  // Parsing a printed instance name returns its template and its printed arguments, exactly when
  // there are fewer than CRYPTO_MAX_ATTRS of them; what follows the name is not looked at.
  lemma ParsePrint(n: Name, rest: string)
    requires Valid(n) && n.Instance?
    ensures Parse(Print(n) + rest) == if |n.args| < MAX_ATTRS then Some(Probe(n.id, ArgsOf(n.args))) else None
  {
    hide PrintAll, ParseArgs;
    var inner := PrintAll(n.args) + ([')'] + rest);
    assert Print(n) + rest == n.id + (['('] + inner);
    IdLenRun(n.id, ['('] + inner);
    Cut(n.id, '(', inner);
    ParseArgsPrint(n.args, rest, 0);
  }

  // A plain name is no probe.
  lemma ParsePlain(id: string)
    requires Ident(id)
    ensures Parse(id) == None
  {
    IdLenRun(id, "");
    assert id + "" == id;
  }

  lemma Uncut(t: string, n: nat)
    requires n < |t|
    ensures t == t[..n] + ([t[n]] + t[n + 1..])
  {
  }

  lemma Associate(a: string, b: string, c: string)
    ensures (a + b) + c == a + (b + c)
  {
  }

  lemma JoinMore(text: string, more: seq<string>)
    requires more != []
    ensures Join([text] + more) == (text + [',']) + Join(more)
  {
    assert ([text] + more)[1..] == more;
  }

  // The arguments are what the texts say.
  predicate SaidBy(args: seq<Arg>, texts: seq<string>) {
    |args| == |texts| && forall i :: 0 <= i < |args| ==> args[i] == ArgOf(texts[i])
  }

  // The other way round: whatever the parser returns is what the text says.
  lemma {:induction false} ParsedArgs(t: string, i: nat) returns (texts: seq<string>, rest: string)
    requires ParseArgs(t, i).Some?
    ensures ParseArgs(t, i).value != [] && i + |ParseArgs(t, i).value| < MAX_ATTRS
    ensures SaidBy(ParseArgs(t, i).value, texts) && t == Join(texts) + ([')'] + rest)
    decreases |t|
  {
    hide ArgLen, ArgOf;
    var n := ArgLen(t).value;
    Uncut(t, n);
    if t[n] == ')' {
      texts, rest := [t[..n]], t[n + 1..];
    } else {
      var more;
      more, rest := ParsedArgs(t[n + 1..], i + 1);
      texts := [t[..n]] + more;
      JoinMore(t[..n], more);
      Associate(t[..n], [','], Join(more) + ([')'] + rest));
      Associate(t[..n] + [','], Join(more), [')'] + rest);
    }
  }

  lemma ParsedText(t: string) returns (texts: seq<string>, rest: string)
    requires Parse(t).Some?
    ensures var p := Parse(t).value;
            p.template != "" && p.args != [] && |p.args| < MAX_ATTRS && SaidBy(p.args, texts) &&
            t == p.template + (['('] + (Join(texts) + ([')'] + rest)))
  {
    hide ParseArgs, Join;
    var n := IdLen(t);
    Uncut(t, n);
    texts, rest := ParsedArgs(t[n + 1..], 0);
  }

  // ---- numbers as arguments --------------------------------------------------------------------

  // A number as "%u" prints it
  function Decimal(n: nat): (s: string)
    ensures s != "" && AllDigits(s)
  {
    if n < 10 then [DigitChar(n)] else Decimal(n / 10) + [DigitChar(n % 10)]
  }

  function DigitChar(d: nat): (c: char)
    requires d < 10
    ensures Digit(c) && DigitOf(c) == d
  {
    ('0' as nat + d) as char
  }

  // No zero in front but for zero itself
  predicate Canonical(s: string) { s != "" && (s[0] == '0' ==> |s| == 1) }

  lemma {:induction false} ReadMore(s: string, c: char, acc: nat)
    requires AllDigits(s) && Digit(c)
    ensures Read(s + [c], 10, acc) == 10 * Read(s, 10, acc) + DigitOf(c)
  {
    if s == "" {
      assert s + [c] == [c] && [c][1..] == "";
    } else {
      assert (s + [c])[1..] == s[1..] + [c];
      ReadMore(s[1..], c, acc * 10 + DigitOf(s[0]));
    }
  }

  lemma {:induction false} ReadDecimal(n: nat)
    ensures Read(Decimal(n), 10, 0) == n && Canonical(Decimal(n)) && (n > 0 ==> Decimal(n)[0] != '0')
  {
    if n < 10 {
      assert Decimal(n)[1..] == "";
    } else {
      ReadDecimal(n / 10);
      ReadMore(Decimal(n / 10), DigitChar(n % 10), 0);
    }
  }

  // A canonical run of digits is how its value is printed.
  lemma {:induction false} DecimalRead(s: string)
    requires AllDigits(s) && Canonical(s)
    ensures Decimal(Read(s, 10, 0)) == s && (s[0] != '0' ==> Read(s, 10, 0) > 0)
  {
    var n := |s| - 1;
    assert s == s[..n] + [s[n]];
    ReadMore(s[..n], s[n], 0);
    if n > 0 {
      DecimalRead(s[..n]);
      var v, d := Read(s[..n], 10, 0), DigitOf(s[n]);
      assert (10 * v + d) / 10 == v && (10 * v + d) % 10 == d;
    }
  }

  lemma ZeroRead()
    ensures Number("0") == 0 && Read("0", 10, 0) == 0 && Decimal(0) == "0"
  {
    assert "0"[1..] == "";
  }

  // A number survives in its 32-bit field if and only if it fits and has no zero in front, which
  // would make it octal.
  lemma NumberKeptIff(s: string)
    requires AllDigits(s) && s != ""
    ensures Decimal(Number(s)) == s <==> Canonical(s) && Read(s, 10, 0) < U32
  {
    hide Decimal, Read, AllDigits;
    ReadDecimal(Number(s));
    if Canonical(s) {
      DecimalRead(s);
      ZeroRead();
      assert s[0] == '0' ==> s == "0";
    }
  }

  // "010" becomes 8.
  lemma OctalLost()
    ensures AllDigits("010") && Number("010") == 8 && Decimal(Number("010")) == "8"
  {
    var s := "010";
    assert s[1..] == "10" && "10"[1..] == "0" && "0"[1..] == "";
    assert Read("0", 8, 1) == 8 && Read("10", 8, 0) == 8;
  }
}
