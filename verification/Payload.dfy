/** The text that the basic client writes into its messages and reads back from them. */
module Payload {
  import opened Types

  // ---- numbers -------------------------------------------------------------------------

  function Digit(d: nat): char
    requires d < 10
  {
    '0' + d as char
  }

  function Dec(n: nat): string { if n < 10 then [Digit(n)] else Dec(n / 10) + [Digit(n % 10)] }

  /** `%d` of a uint32_t prints it as a signed number. */
  function Signed(x: u32): string { if ToInt32(x) < 0 then "-" + Dec(-ToInt32(x)) else Dec(ToInt32(x)) }

  predicate IsDigit(c: char) { '0' <= c <= '9' }

  predicate AllDigits(s: string) { forall i :: 0 <= i < |s| ==> IsDigit(s[i]) }

  /** The value of the leading digits, appended to those already read. */
  function Digits(s: string, value: nat): nat {
    if s == [] || !IsDigit(s[0]) then value else Digits(s[1..], 10 * value + (s[0] - '0') as nat)
  }

  function Atoi(s: string): int {
    var v: int := Digits(if s != [] && (s[0] == '-' || s[0] == '+') then s[1..] else s, 0);
    if s != [] && s[0] == '-' then -v else v
  }

  /** An int stored into a uint32_t. */
  function AsU32(x: int): u32 { x % U32 }

  lemma {:induction false} DecDigits(n: nat)
    ensures AllDigits(Dec(n)) && |Dec(n)| > 0
    decreases n
  {
    if n >= 10 {
      DecDigits(n / 10);
    }
  }

  lemma {:induction false} DigitsAppend(s: string, c: char, value: nat)
    requires AllDigits(s) && IsDigit(c)
    ensures Digits(s + [c], value) == 10 * Digits(s, value) + (c - '0') as nat
    decreases |s|
  {
    if s == [] {
      assert [c][1..] == [] && s + [c] == [c];
      assert Digits([], 10 * value + (c - '0') as nat) == 10 * value + (c - '0') as nat;
    } else {
      assert (s + [c])[1..] == s[1..] + [c];
      DigitsAppend(s[1..], c, 10 * value + (s[0] - '0') as nat);
    }
  }

  lemma {:induction false} DecRead(n: nat)
    ensures Digits(Dec(n), 0) == n
    decreases n
  {
    if n < 10 {
      assert Dec(n)[1..] == [];
      assert Digits([], n) == n;
    } else {
      DecDigits(n / 10);
      DecRead(n / 10);
      DigitsAppend(Dec(n / 10), Digit(n % 10), 0);
    }
  }

  /** A number printed as signed and read back is the number, also where the sign is an accident. */
  lemma SignedRead(x: u32)
    ensures AsU32(Atoi(Signed(x))) == x
  {
    var v := ToInt32(x);
    DecDigits(if v < 0 then -v else v);
    DecRead(if v < 0 then -v else v);
    if v < 0 {
      assert Signed(x)[1..] == Dec(-v);
    }
  }

  // ---- tokens --------------------------------------------------------------------------

  predicate NoSpace(s: string) { forall i :: 0 <= i < |s| ==> s[i] != ' ' }

  function SkipSpaces(s: string): string { if s != [] && s[0] == ' ' then SkipSpaces(s[1..]) else s }

  lemma {:induction false} SkipShortens(s: string)
    ensures |SkipSpaces(s)| <= |s| && (s != [] && s[0] == ' ' ==> |SkipSpaces(s)| < |s|)
    decreases |s|
  {
    if s != [] && s[0] == ' ' {
      SkipShortens(s[1..]);
    }
  }

  function FirstWord(s: string): (r: string)
    ensures |r| <= |s| && r == s[..|r|] && NoSpace(r) && (|r| < |s| ==> s[|r|] == ' ')
  {
    if s == [] || s[0] == ' ' then [] else [s[0]] + FirstWord(s[1..])
  }

  /** Splitting at spaces, adjacent ones counting as one. */
  function Tokens(s: string): seq<string>
    decreases |s|
  {
    var w := FirstWord(s);
    if |w| == |s| then [w] else SkipShortens(s[|w|..]); [w] + Tokens(SkipSpaces(s[|w|..]))
  }

  lemma {:induction false} WordThenSpace(w: string, rest: string)
    requires NoSpace(w) && (rest == [] || rest[0] == ' ')
    ensures FirstWord(w + rest) == w
    decreases |w|
  {
    if w == [] {
      assert w + rest == rest;
    } else {
      assert (w + rest)[1..] == w[1..] + rest;
      WordThenSpace(w[1..], rest);
    }
  }

  /** A word followed by one space and something else is the first token. */
  lemma TokenTaken(w: string, rest: string)
    requires NoSpace(w) && (rest == [] || rest[0] != ' ')
    ensures Tokens(w + " " + rest) == [w] + Tokens(rest)
  {
    assert w + " " + rest == w + (" " + rest);
    WordThenSpace(w, " " + rest);
    assert (w + (" " + rest))[|w|..] == " " + rest;
    assert (" " + rest)[1..] == rest;
    assert SkipSpaces(rest) == rest;
  }

  lemma SignedNoSpace(x: u32)
    ensures NoSpace(Signed(x)) && |Signed(x)| > 0
  {
    DecDigits(if ToInt32(x) < 0 then -ToInt32(x) else ToInt32(x));
  }

  // ---- the broadcast payload -----------------------------------------------------------

  /** Time, message number, node, and what comes after them. */
  function Line(micro: nat, counter: u32, node: NodeId, rest: string): string {
    Dec(micro) + " " + NumberOn(counter, node, rest)
  }

  function NumberOn(counter: u32, node: NodeId, rest: string): string { Signed(counter) + " " + SourceOn(node, rest) }

  function SourceOn(node: NodeId, rest: string): string { "src" + " " + NodeOn(node, rest) }

  function NodeOn(node: NodeId, rest: string): string { Signed(node) + " " + rest }

  function Padding(k: nat): string { seq(k, _ => 'x') }

  /** The payload: padded to the size asked for, if it is not longer already. */
  function Built(micro: nat, counter: u32, node: NodeId, size: nat): string {
    var bare := |Line(micro, counter, node, "")|;
    Line(micro, counter, node, Padding(if bare < size then size - bare else 0))
  }

  lemma LineGrows(micro: nat, counter: u32, node: NodeId, rest: string, more: string)
    ensures Line(micro, counter, node, rest + more) == Line(micro, counter, node, rest) + more
    ensures |Line(micro, counter, node, rest)| == |Line(micro, counter, node, "")| + |rest|
  {
    hide Dec, Signed;
    assert NodeOn(node, rest + more) == NodeOn(node, rest) + more;
    assert SourceOn(node, rest + more) == SourceOn(node, rest) + more;
    assert NumberOn(counter, node, rest + more) == NumberOn(counter, node, rest) + more;
  }

  method Build(micro: nat, counter: u32, node: NodeId, size: nat) returns (text: string)
    ensures text == Built(micro, counter, node, size)
    ensures |text| >= size
  {
    text := Line(micro, counter, node, "");
    ghost var bare := |text|;
    ghost var pad := 0;
    while |text| < size
      invariant |text| == bare + pad && (pad > 0 ==> |text| <= size)
      invariant text == Line(micro, counter, node, Padding(pad))
    {
      text := text + "x";
      LineGrows(micro, counter, node, Padding(pad), "x");
      assert Padding(pad) + "x" == Padding(pad + 1);
      pad := pad + 1;
    }
  }

  /** What the receiver makes of a payload: the message number and, for broadcast, the node named in
      it; reading past the last token is undefined. */
  datatype Reading = Reading(number: u32, node: Option<u32>) | Undefined

  function Read(text: string, unicast: bool): Reading {
    var ts := Tokens(text);
    if unicast then (if |ts| > 1 then Reading(AsU32(Atoi(ts[1])), None) else Undefined)
    else if |ts| > 3 then Reading(AsU32(Atoi(ts[1])), Some(AsU32(Atoi(ts[3]))))
    else Undefined
  }

  /** The number in the second word, which is all that the receiver keeps of a payload. */
  function NumberIn(text: string, stray: u32): u32 {
    var ts := Tokens(text); if |ts| > 1 then AsU32(Atoi(ts[1])) else stray
  }

  lemma ReadsNumber(text: string, unicast: bool, stray: u32)
    ensures Read(text, unicast).Reading? ==> NumberIn(text, stray) == Read(text, unicast).number
  {
  }

  lemma BuiltTokens(micro: nat, counter: u32, node: NodeId, size: nat)
    ensures var ts := Tokens(Built(micro, counter, node, size));
            |ts| > 3 && ts[1] == Signed(counter) && ts[3] == Signed(node)
  {
    hide Dec, Signed, Tokens;
    var bare := |Line(micro, counter, node, "")|;
    var pad := Padding(if bare < size then size - bare else 0);
    DecDigits(micro);
    SignedNoSpace(counter);
    SignedNoSpace(node);
    StartsPlain(counter);
    StartsPlain(node);
    TokenTaken(Signed(node), pad);
    TokenTaken("src", NodeOn(node, pad));
    TokenTaken(Signed(counter), SourceOn(node, pad));
    TokenTaken(Dec(micro), NumberOn(counter, node, pad));
  }

  lemma StartsPlain(x: u32)
    ensures Signed(x) != [] && Signed(x)[0] != ' '
  {
    SignedNoSpace(x);
  }

  /** Whatever the padding, the number and the node written are the ones read. */
  lemma PayloadRead(micro: nat, counter: u32, node: NodeId, size: nat)
    ensures Read(Built(micro, counter, node, size), false) == Reading(counter, Some(node))
  {
    BuiltTokens(micro, counter, node, size);
    SignedRead(counter);
    SignedRead(node);
  }

  // ---- the unicast response ------------------------------------------------------------

  function Response(count: u32, node: NodeId, gid: GroupId): string {
    "Response" + " " + (Signed(count) + " " + ("to node " + Signed(node) + " for GID " + Signed(gid)))
  }

  lemma ResponseRead(count: u32, node: NodeId, gid: GroupId)
    ensures Read(Response(count, node, gid), true) == Reading(count, None)
  {
    var tail := "to node " + Signed(node) + " for GID " + Signed(gid);
    SignedNoSpace(count);
    assert tail[0] == 't';
    StartsPlain(count);
    hide Signed, Tokens;
    TokenTaken(Signed(count), tail);
    TokenTaken("Response", Signed(count) + " " + tail);
    assert Tokens(Response(count, node, gid))[1] == Signed(count);
    SignedRead(count);
  }

  // ---- bytes ---------------------------------------------------------------------------

  function Bytes(s: string): Types.Payload { seq(|s|, i requires 0 <= i < |s| => s[i] as nat) }

  function Text(p: Types.Payload): string { seq(|p|, i requires 0 <= i < |p| => (p[i] % 256) as char) }

  predicate Ascii(s: string) { forall i :: 0 <= i < |s| ==> s[i] < 128 as char }

  lemma TextOfBytes(s: string)
    requires Ascii(s)
    ensures Text(Bytes(s)) == s
  {
  }

  lemma {:induction false} DecAscii(n: nat)
    ensures Ascii(Dec(n))
    decreases n
  {
    if n >= 10 {
      DecAscii(n / 10);
    }
  }

  lemma BuiltAscii(micro: nat, counter: u32, node: NodeId, size: nat)
    ensures Ascii(Built(micro, counter, node, size))
  {
    DecAscii(micro);
    SignedAscii(counter);
    SignedAscii(node);
  }

  lemma SignedAscii(x: u32)
    ensures Ascii(Signed(x))
  {
    DecAscii(if ToInt32(x) < 0 then -ToInt32(x) else ToInt32(x));
  }

  lemma ResponseAscii(count: u32, node: NodeId, gid: GroupId)
    ensures Ascii(Response(count, node, gid))
  {
    SignedAscii(count);
    SignedAscii(node);
    SignedAscii(gid);
  }
}
