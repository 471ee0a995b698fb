/**
 * Names of algorithm instances: how they are printed, template(argument,...), and what the
 * parser of cryptomgr_schedule_probe makes of a string. A string is the text before the
 * terminating zero.
 */
module NameModel {

  datatype Option<T> = None | Some(value: T)

  datatype Name = Plain(id: string) | Instance(id: string, args: seq<Name>)

  // An attribute of a probe: the name of an algorithm or a number
  datatype Arg = Alg(name: string) | Num(num: nat)

  datatype Probe = Probe(template: string, args: seq<Arg>)

  // CRYPTO_MAX_ATTRS
  const MAX_ATTRS: nat := 32

  predicate Digit(c: char) { '0' <= c <= '9' }

  // isalnum takes the letters of Latin-1, all but the signs of multiplication and division.
  predicate Letter(c: char) {
    'a' <= c <= 'z' || 'A' <= c <= 'Z' || ('\U{C0}' <= c <= '\U{FF}' && c != '\U{D7}' && c != '\U{F7}')
  }

  predicate IdChar(c: char) { Letter(c) || Digit(c) || c == '-' || c == '_' }

  predicate Ident(s: string) { forall i :: 0 <= i < |s| ==> IdChar(s[i]) }

  predicate AllDigits(s: string) { forall i :: 0 <= i < |s| ==> Digit(s[i]) }

  predicate Valid(n: Name) {
    n.id != "" && Ident(n.id) && (n.Instance? ==> n.args != [] && forall a :: a in n.args ==> Valid(a))
  }

  // ---- printing --------------------------------------------------------------------------------

  function Print(n: Name): string {
    match n
    case Plain(id) => id
    case Instance(id, args) => id + "(" + PrintAll(args) + ")"
  }

  function PrintAll(args: seq<Name>): string {
    if args == [] then "" else if |args| == 1 then Print(args[0]) else Print(args[0]) + "," + PrintAll(args[1..])
  }

  // ---- numbers ---------------------------------------------------------------------------------

  const ULONG := 0x1_0000_0000_0000_0000
  const U32 := 0x1_0000_0000

  function DigitOf(c: char): (d: nat)
    requires Digit(c)
    ensures d < 10
  {
    c as nat - '0' as nat
  }

  // The digits below the base at the front, after `acc`
  function Read(s: string, base: nat, acc: nat): nat {
    if s == "" || !Digit(s[0]) || DigitOf(s[0]) >= base then acc else Read(s[1..], base, acc * base + DigitOf(s[0]))
  }

  // simple_guess_base: a zero in front makes a number octal.
  function Base(s: string): nat { if s != "" && s[0] == '0' then 8 else 10 }

  // What becomes of a run of digits in a field of 32 bits
  function Number(s: string): nat { Read(s, Base(s), 0) % U32 }

  function ArgOf(text: string): Arg { if AllDigits(text) then Num(Number(text)) else Alg(text) }

  function Join(texts: seq<string>): string {
    if texts == [] then "" else if |texts| == 1 then texts[0] else texts[0] + "," + Join(texts[1..])
  }

  function ArgsOf(args: seq<Name>): seq<Arg> { seq(|args|, i requires 0 <= i < |args| => ArgOf(Print(args[i]))) }

  // ---- parsing ---------------------------------------------------------------------------------

  // Length of the run of name characters at the front
  function IdLen(t: string): (n: nat)
    ensures n <= |t|
  {
    if t != "" && IdChar(t[0]) then 1 + IdLen(t[1..]) else 0
  }

  // Length up to and including the parenthesis that closes `depth` further ones
  function CloseLen(t: string, depth: nat): Option<nat> {
    if t == "" then None
    else if t[0] == ')' && depth == 0 then Some(1)
    else
      var d := if t[0] == '(' then depth + 1 else if t[0] == ')' then depth - 1 else depth;
      match CloseLen(t[1..], d)
      case None => None
      case Some(n) => Some(n + 1)
  }

  lemma {:induction false} CloseBound(t: string, depth: nat)
    ensures CloseLen(t, depth).Some? ==> 0 < CloseLen(t, depth).value <= |t|
  {
    if t != "" && !(t[0] == ')' && depth == 0) {
      CloseBound(t[1..], if t[0] == '(' then depth + 1 else if t[0] == ')' then depth - 1 else depth);
    }
  }

  // Length of an argument: a name, with a parenthesised part if one follows
  function ArgLen(t: string): (r: Option<nat>)
    ensures r.Some? ==> r.value <= |t|
  {
    var n := IdLen(t);
    if n < |t| && t[n] == '(' then
      CloseBound(t[n + 1..], 0);
      match CloseLen(t[n + 1..], 0)
      case None => None
      case Some(m) => Some(n + 1 + m)
    else Some(n)
  }

  // The arguments from the (i+1)-th on
  function ParseArgs(t: string, i: nat): Option<seq<Arg>>
    decreases |t|
  {
    match ArgLen(t)
    case None => None
    case Some(n) =>
      if n == 0 || i + 1 >= MAX_ATTRS || n == |t| then None
      else if t[n] == ')' then Some([ArgOf(t[..n])])
      else if t[n] != ',' then None
      else
        match ParseArgs(t[n + 1..], i + 1)
        case None => None
        case Some(rest) => Some([ArgOf(t[..n])] + rest)
  }

  // What cryptomgr_schedule_probe makes of a name
  function Parse(t: string): Option<Probe> {
    var n := IdLen(t);
    if n == 0 || n == |t| || t[n] != '(' then None
    else
      match ParseArgs(t[n + 1..], 0)
      case None => None
      case Some(args) => Some(Probe(t[..n], args))
  }
}
