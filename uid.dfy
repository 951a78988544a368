/** `generateUID(length = 12)` of lib/utils/uid.ts: append one character of
    the 36-character alphabet per draw of `Math.random()`. The draws are an
    argument: draw `i` is a real number in [0, 1) and picks the character at
    index `floor(draw * 36)`. */
module Uid {

  const Alphabet: string := "ABCDEFGHIJKLMNOPQRSTUVWXYZ0123456789"

  const DefaultLength: nat := 12

  /** What `Math.random()` promises of each draw. */
  predicate ValidDraws(draws: seq<real>) {
    forall i :: 0 <= i < |draws| ==> 0.0 <= draws[i] < 1.0
  }

  /** `Math.floor(draw * chars.length)`: always a valid index of the alphabet. */
  function DrawIndex(draw: real): (k: int)
    requires 0.0 <= draw < 1.0
    ensures 0 <= k < |Alphabet|
  {
    (draw * |Alphabet| as real).Floor
  }

  /** `s.charAt(k)`: the one-character string at `k`, or "" outside the string. */
  function CharAt(s: string, k: int): (c: string)
    ensures |c| <= 1
  {
    if 0 <= k < |s| then [s[k]] else ""
  }

  /** The character one draw contributes: never the empty string. */
  function Pick(draw: real): (c: string)
    requires 0.0 <= draw < 1.0
    ensures |c| == 1 && c[0] in Alphabet
    ensures c == [Alphabet[DrawIndex(draw)]]
  {
    CharAt(Alphabet, DrawIndex(draw))
  }

  /** The identifier a sequence of draws produces, in draw order. */
  function UidOf(draws: seq<real>): string
    requires ValidDraws(draws)
  {
    if draws == [] then ""
    else UidOf(draws[..|draws| - 1]) + Pick(draws[|draws| - 1])
  }

  lemma {:induction false} UidOfLength(draws: seq<real>)
    requires ValidDraws(draws)
    ensures |UidOf(draws)| == |draws|
  {
    if draws != [] {
      UidOfLength(draws[..|draws| - 1]);
    }
  }

  /** Character `i` is the alphabet entry chosen by draw `i`. */
  lemma {:induction false} UidOfAt(draws: seq<real>, i: nat)
    requires ValidDraws(draws) && i < |draws|
    ensures |UidOf(draws)| == |draws|
    ensures UidOf(draws)[i] == Alphabet[DrawIndex(draws[i])]
  {
    UidOfLength(draws);
    var n := |draws| - 1;
    UidOfLength(draws[..n]);
    if i < n {
      UidOfAt(draws[..n], i);
    }
  }

  /** Every character of an identifier is one of A-Z, 0-9. */
  lemma UidOfInAlphabet(draws: seq<real>)
    requires ValidDraws(draws)
    ensures forall i :: 0 <= i < |UidOf(draws)| ==> UidOf(draws)[i] in Alphabet
  {
    UidOfLength(draws);
    forall i | 0 <= i < |UidOf(draws)| ensures UidOf(draws)[i] in Alphabet {
      UidOfAt(draws, i);
    }
  }

  /** Later draws only extend the identifier: the first `n` draws give its first `n` characters. */
  lemma {:induction false} UidOfPrefix(draws: seq<real>, n: nat)
    requires ValidDraws(draws) && n <= |draws|
    ensures UidOf(draws[..n]) <= UidOf(draws)
  {
    if n < |draws| {
      var m := |draws| - 1;
      assert draws[..m][..n] == draws[..n];
      UidOfPrefix(draws[..m], n);
    } else {
      assert draws[..n] == draws;
    }
  }

  /** The loop of generateUID: `for (i = 0; i < length; i++) uid += chars.charAt(...)`. */
  method GenerateUID(draws: seq<real>, length: nat := DefaultLength) returns (uid: string)
    requires ValidDraws(draws) && length <= |draws|
    ensures uid == UidOf(draws[..length])
    ensures |uid| == length
    ensures forall i :: 0 <= i < length ==> uid[i] == Alphabet[DrawIndex(draws[i])]
  {
    uid := "";
    for i := 0 to length
      invariant uid == UidOf(draws[..i])
    {
      ghost var taken := draws[..i + 1];
      assert taken[..i] == draws[..i] && taken[i] == draws[i];
      uid := uid + CharAt(Alphabet, DrawIndex(draws[i]));
      assert uid == UidOf(taken);
    }
    forall i | 0 <= i < length ensures |uid| == length && uid[i] == Alphabet[DrawIndex(draws[i])] {
      UidOfAt(draws[..length], i);
    }
    UidOfLength(draws[..length]);
  }

  /** With no length argument the identifier has 12 characters, all from the alphabet. */
  method GenerateDefaultUID(draws: seq<real>) returns (uid: string)
    requires ValidDraws(draws) && DefaultLength <= |draws|
    ensures |uid| == 12
    ensures forall i :: 0 <= i < |uid| ==> uid[i] in Alphabet
  {
    uid := GenerateUID(draws);
  }
}
