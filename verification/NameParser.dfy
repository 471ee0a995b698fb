/**
 * The scanning loops of cryptomgr_schedule_probe.
 */
module NameParser {
  import opened NameModel

  // *p, with the terminating zero behind the string
  function At(name: string, p: nat): char
    requires p <= |name|
  {
    if p == |name| then '\0' else name[p]
  }

  lemma DigitsGrow(name: string, p0: nat, p: nat)
    requires p0 <= p <= |name|
    ensures AllDigits(name[p0..p0])
    ensures p < |name| ==> AllDigits(name[p0..p + 1]) == (AllDigits(name[p0..p]) && Digit(name[p]))
  {
    if p < |name| {
      var w, v := name[p0..p], name[p0..p + 1];
      assert v == w + [name[p]];
      if AllDigits(v) {
        assert forall i :: 0 <= i < |w| ==> w[i] == v[i];
        assert Digit(v[|w|]);
      }
    }
  }

  // A run of name characters; notNum tells whether one of them is no digit.
  method SkipId(name: string, p0: nat) returns (p: nat, notNum: bool)
    requires p0 <= |name|
    ensures p == p0 + IdLen(name[p0..]) && p <= |name|
    ensures notNum == !AllDigits(name[p0..p])
  {
    hide AllDigits;
    DigitsGrow(name, p0, p0);
    p, notNum := p0, false;
    while IdChar(At(name, p))
      invariant p0 <= p <= |name| && IdLen(name[p0..]) == p - p0 + IdLen(name[p..])
      invariant notNum == !AllDigits(name[p0..p])
      decreases |name| - p
    {
      assert name[p..][1..] == name[p + 1..];
      DigitsGrow(name, p0, p);
      notNum := notNum || !Digit(name[p]);
      p := p + 1;
    }
    assert IdLen(name[p..]) == 0;
  }

  // From an opening parenthesis at p0 to the one that closes it
  method SkipGroup(name: string, p0: nat) returns (found: bool, p: nat)
    requires p0 < |name| && '\0' !in name
    ensures p0 <= p <= |name|
    ensures var r := CloseLen(name[p0 + 1..], 0);
            found == r.Some? && (found ==> p < |name| && p + 1 == p0 + 1 + r.value)
  {
    var recursion := 0;
    p := p0;
    while true
      invariant p0 <= p < |name| && 0 <= recursion
      invariant var r := CloseLen(name[p0 + 1..], 0); var r' := CloseLen(name[p + 1..], recursion);
                r.Some? == r'.Some? && (r.Some? ==> r.value == p - p0 + r'.value)
      decreases |name| - p
    {
      p := p + 1;
      assert p < |name| ==> name[p..][1..] == name[p + 1..];
      if At(name, p) == '\0' { return false, p; }
      if name[p] == '(' {
        recursion := recursion + 1;
      } else if name[p] == ')' {
        if recursion == 0 { return true, p; }
        recursion := recursion - 1;
      }
    }
  }

  // One argument: where it ends, and whether it is more than a number
  method SkipArg(name: string, p0: nat) returns (ok: bool, p: nat, notNum: bool)
    requires p0 <= |name| && '\0' !in name
    ensures var r := ArgLen(name[p0..]);
            ok == r.Some? && (ok ==> p == p0 + r.value && p <= |name| && notNum == !AllDigits(name[p0..p]))
  {
    p, notNum := SkipId(name, p0);
    ok := true;
    if At(name, p) == '(' {
      var open := p;
      ok, p := SkipGroup(name, p);
      assert name[p0..][open - p0 + 1..] == name[open + 1..];
      if ok {
        notNum := true;
        p := p + 1;
        assert name[p0..p][open - p0] == '(';
      }
    }
  }

  function Ulong(x: nat): nat { x % ULONG }

  // result * base + value in an unsigned long
  method AddDigit(num: nat, base: nat, value: nat, ghost result: nat) returns (r: nat)
    requires num == Ulong(result) && (base == 8 || base == 10)
    ensures r == Ulong(result * base + value)
  {
    Wraps(result, base, value);
    r := (num * base + value) % ULONG;
  }

  lemma ReadStep(s: string, i: nat, base: nat, acc: nat)
    requires AllDigits(s) && i < |s|
    ensures Digit(s[i])
    ensures Read(s[i..], base, acc) == if DigitOf(s[i]) >= base then acc else Read(s[i + 1..], base, acc * base + DigitOf(s[i]))
  {
    assert s[i..][1..] == s[i + 1..];
  }

  lemma ReadEnds(s: string, base: nat, acc: nat)
    ensures Read(s[0..], base, acc) == Read(s, base, acc) && Read(s[|s|..], base, acc) == acc
  {
    assert s[0..] == s;
  }

  lemma Truncates(s: string, x: nat)
    requires x == Read(s, Base(s), 0)
    ensures Ulong(x) % U32 == Number(s)
  {
    var q := x / ULONG;
    assert x == Ulong(x) + (q * U32) * U32;
    ModU32(Ulong(x), q * U32);
  }

  lemma ModU32(a: nat, k: nat)
    ensures (a + k * U32) % U32 == a % U32
  {
  }

  lemma UlongZero()
    ensures Ulong(0) == 0
  {
  }

  // simple_strtol(name, NULL, 0) on a run of digits
  method Strtol(s: string) returns (num: nat)
    requires AllDigits(s)
    ensures num % U32 == Number(s)
  {
    hide Read, AllDigits, Number, Ulong, DigitOf;
    var base := if s != "" && s[0] == '0' then 8 else 10;
    var i, stop := 0, false;
    ghost var result: nat := 0;
    num := 0;
    ReadEnds(s, base, 0);
    UlongZero();
    while i < |s| && !stop
      invariant i <= |s| && num == Ulong(result)
      invariant Read(s, base, 0) == if stop then result else Read(s[i..], base, result)
      decreases |s| - i, !stop
    {
      ReadStep(s, i, base, result);
      var value := DigitOf(s[i]);
      if value >= base {
        stop := true;
      } else {
        num := AddDigit(num, base, value, result);
        result := result * base + value;
        i := i + 1;
      }
    }
    ReadEnds(s, base, result);
    Truncates(s, result);
  }

  lemma Wraps(x: nat, base: nat, value: nat)
    requires base == 8 || base == 10
    ensures ((x % ULONG) * base + value) % ULONG == (x * base + value) % ULONG
  {
    var q := x / ULONG;
    assert x == q * ULONG + x % ULONG;
    if base == 8 {
      ModPlus((x % ULONG) * 8 + value, 8 * q);
    } else {
      ModPlus((x % ULONG) * 10 + value, 10 * q);
    }
  }

  lemma ModPlus(a: nat, k: nat)
    ensures (a + k * ULONG) % ULONG == a % ULONG
  {
  }

  // The attributes found so far, followed by the rest
  function Prepend(attrs: seq<Arg>, r: Option<seq<Arg>>): Option<seq<Arg>> {
    match r
    case None => None
    case Some(rest) => Some(attrs + rest)
  }

  lemma PrependLaws(attrs: seq<Arg>, a: Arg, r: Option<seq<Arg>>)
    ensures Prepend([], r) == r && Prepend(attrs, Prepend([a], r)) == Prepend(attrs + [a], r)
    ensures Prepend(attrs, Some([a])) == Some(attrs + [a])
  {
    if r.Some? { assert attrs + ([a] + r.value) == (attrs + [a]) + r.value && [] + r.value == r.value; }
  }

  // One round of the loop, in terms of positions
  lemma NextArg(name: string, start: nat, i: nat)
    requires start <= |name|
    ensures var r := ArgLen(name[start..]);
            ParseArgs(name[start..], i) ==
            if r.None? || r.value == 0 || i + 1 >= MAX_ATTRS || start + r.value == |name| then None
            else
              var end := start + r.value;
              if name[end] == ')' then Some([ArgOf(name[start..end])])
              else if name[end] != ',' then None
              else Prepend([ArgOf(name[start..end])], ParseArgs(name[end + 1..], i + 1))
  {
    hide ArgLen, ArgOf;
    var t := name[start..];
    var r := ArgLen(t);
    if r.Some? && r.value < |t| {
      assert t[..r.value] == name[start..start + r.value] && t[r.value + 1..] == name[start + r.value + 1..];
    }
  }

  // The template and the attributes of the probe, or nothing
  method ScheduleProbe(name: string) returns (probe: Option<Probe>)
    requires '\0' !in name
    ensures probe == Parse(name)
  {
    hide ArgLen, ParseArgs, AllDigits;
    var p, _ := SkipId(name, 0);
    assert name[0..] == name;
    if p == 0 || At(name, p) != '(' { return None; }
    var template := name[..p];
    var attrs: seq<Arg> := [];
    ghost var all := ParseArgs(name[p + 1..], 0);
    PrependLaws([], Num(0), all);
    while true
      invariant p < |name| && |attrs| < MAX_ATTRS && all == Prepend(attrs, ParseArgs(name[p + 1..], |attrs|))
      decreases |name| - p
    {
      var start := p + 1;
      var ok, end, notNum := SkipArg(name, start);
      NextArg(name, start, |attrs|);
      if !ok || end == start { return None; }
      var attr := Alg(name[start..end]);
      if !notNum {
        var num := Strtol(name[start..end]);
        attr := Num(num % U32);
      }
      PrependLaws(attrs, attr, if end < |name| then ParseArgs(name[end + 1..], |attrs| + 1) else None);
      attrs := attrs + [attr];
      if |attrs| >= MAX_ATTRS { return None; }
      if At(name, end) == ')' { return Some(Probe(template, attrs)); }
      if At(name, end) != ',' { return None; }
      p := end;
    }
  }
}
