/** The `generateUID()` of lib/firebase/config.ts, the one the auth provider
    uses: the same loop as lib/utils/uid.ts with the length fixed at 12. The
    module's backend initialisation is not part of this model. */
module FirebaseConfig {
  import Uid

  const Chars: string := "ABCDEFGHIJKLMNOPQRSTUVWXYZ0123456789"

  const UidLength: nat := 12

  method GenerateUID(draws: seq<real>) returns (uid: string)
    requires Uid.ValidDraws(draws) && UidLength <= |draws|
    ensures |uid| == 12
    ensures forall i :: 0 <= i < |uid| ==> uid[i] in Chars
    ensures uid == Uid.UidOf(draws[..UidLength])
  {
    assert Chars == Uid.Alphabet;
    uid := "";
    for i := 0 to UidLength
      invariant uid == Uid.UidOf(draws[..i])
    {
      ghost var taken := draws[..i + 1];
      assert taken[..i] == draws[..i] && taken[i] == draws[i];
      uid := uid + Uid.CharAt(Chars, Uid.DrawIndex(draws[i]));
      assert uid == Uid.UidOf(taken);
    }
    Uid.UidOfLength(draws[..UidLength]);
    Uid.UidOfInAlphabet(draws[..UidLength]);
  }

  /** For the same draws, this generator and `generateUID(12)` of
      lib/utils/uid.ts return the same identifier. */
  method SameAsUtilGenerator(draws: seq<real>) returns (fromConfig: string, fromUtil: string)
    requires Uid.ValidDraws(draws) && UidLength <= |draws|
    ensures fromConfig == fromUtil
    ensures |fromConfig| == 12
  {
    fromConfig := GenerateUID(draws);
    fromUtil := Uid.GenerateUID(draws, 12);
  }
}
