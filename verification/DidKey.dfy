// did:key identifiers of Ed25519 public keys, and the multibase keys of PLC documents.
module DidKeys {
  import opened Wrappers
  import opened Table
  import opened Base58

  const MULTICODEC: seq<Byte> := [0xed, 0x01]
  const KEY_SIZE := 32

  function Multibase(pub: seq<Byte>): string {
    "z" + Encoded(MULTICODEC + pub)
  }

  function DidKey(pub: seq<Byte>): string {
    "did:key:" + Multibase(pub)
  }

  // The public key a multibase string carries, if it carries one.
  function MultibaseKey(text: string): Option<seq<Byte>> {
    if |text| < 2 || text[0] != 'z' then None
    else
      match Decoded(text[1..])
      case None => None
      case Some(raw) =>
        if |raw| != 2 + KEY_SIZE || raw[0] != 0xed || raw[1] != 0x01 then None else Some(raw[2..])
  }

  // A multibase string yields a key exactly when it is the one text of that key.
  lemma MultibaseKeyIsExact(text: string, key: seq<Byte>)
    ensures MultibaseKey(text) == Some(key) <==> |key| == KEY_SIZE && text == Multibase(key)
  {
    if MultibaseKey(text) == Some(key) {
      var raw := Decoded(text[1..]).value;
      EncodeDecoded(text[1..]);
      assert raw == MULTICODEC + key;
      assert text == "z" + text[1..];
    }
    if |key| == KEY_SIZE && text == Multibase(key) {
      DecodeEncoded(MULTICODEC + key);
      assert text[1..] == Encoded(MULTICODEC + key);
      assert Decoded("") == Some([]) by {
        assert Places("", ALPHABET) == Some([]);
        assert Value([], 58) == 0 && Digits(0, 256) == [];
        assert Rebase([], 58, 256) == [];
      }
      assert (MULTICODEC + key)[2..] == key;
    }
  }

  // No two keys, of any length, share a did:key.
  lemma DidKeyIsInjective(a: seq<Byte>, b: seq<Byte>)
    requires DidKey(a) == DidKey(b)
    ensures a == b
  {
    assert DidKey(a)[9..] == Encoded(MULTICODEC + a);
    assert DidKey(b)[9..] == Encoded(MULTICODEC + b);
    DecodeEncoded(MULTICODEC + a);
    DecodeEncoded(MULTICODEC + b);
    assert (MULTICODEC + a)[2..] == a && (MULTICODEC + b)[2..] == b;
  }

  // The text: the prefix, then base58 of 0xed, 0x01 and the key.
  lemma DidKeyText(pub: seq<Byte>)
    ensures |DidKey(pub)| >= 9 && DidKey(pub)[..9] == "did:key:z"
    ensures Decoded(DidKey(pub)[9..]) == Some([0xed, 0x01] + pub)
  {
    assert DidKey(pub)[9..] == Encoded(MULTICODEC + pub);
    DecodeEncoded(MULTICODEC + pub);
  }

  lemma KeyIsRecovered(pub: seq<Byte>)
    requires |pub| == KEY_SIZE
    ensures MultibaseKey(DidKey(pub)[8..]) == Some(pub)
  {
    assert DidKey(pub)[8..] == Multibase(pub);
    MultibaseKeyIsExact(Multibase(pub), pub);
  }

  method DeriveDIDKey(pub: seq<Byte>) returns (did: string)
    ensures did == DidKey(pub)
  {
    var text := Base58Encode(MULTICODEC + pub);
    did := "did:key:z" + text;
  }

  method DecodeMultibaseKey(text: string) returns (key: Option<seq<Byte>>)
    ensures key == MultibaseKey(text)
  {
    if |text| < 2 || text[0] != 'z' {
      return None;
    }
    var raw := Base58Decode(text[1..]);
    if raw.None? || |raw.value| != 2 + KEY_SIZE || raw.value[0] != 0xed || raw.value[1] != 0x01 {
      return None;
    }
    return Some(raw.value[2..]);
  }

  // At most one key passes for a claimed identifier.
  method VerifyDIDKeyDirect(did: string, pub: seq<Byte>) returns (ok: bool)
    ensures ok <==> did == DidKey(pub)
    ensures ok ==> forall other :: did == DidKey(other) ==> other == pub
  {
    var expected := DeriveDIDKey(pub);
    forall other | DidKey(other) == DidKey(pub) ensures other == pub {
      DidKeyIsInjective(other, pub);
    }
    ok := did == expected;
  }
}
