/**
 * Phone-record cryptography (src/services/phoneCrypto.ts). The cipher is a pair of
 * functions constrained by laws; the envelope layout is written out.
 */
module PhoneCrypto {
  import opened Domain

  type Bytes = seq<bv8>

  const IV_LEN := 12
  const TAG_LEN := 16

  datatype Sealed = Sealed(ciphertext: Bytes, tag: Bytes)

  /** An authenticated cipher under one fixed key: `seal(iv, plaintext)`, and `open(iv, tag, ciphertext)`. */
  datatype Aead = Aead(seal: (Bytes, Bytes) -> Sealed, open: (Bytes, Bytes, Bytes) -> Option<Bytes>)

  /** Decryption inverts encryption (sections 2.1 and 2.2 of RFC 5116); GCM adds a 16-byte tag and keeps the length. */
  ghost predicate Lawful(a: Aead) {
    forall iv: Bytes, p: Bytes {:trigger a.seal(iv, p)} :: |iv| == IV_LEN ==>
      var s := a.seal(iv, p);
      |s.tag| == TAG_LEN && |s.ciphertext| == |p| && a.open(iv, s.tag, s.ciphertext) == Some(p)
  }

  function Encrypt(a: Aead, iv: Bytes, plaintext: Bytes): Bytes {
    var s := a.seal(iv, plaintext);
    iv + s.tag + s.ciphertext
  }

  /** `None` stands for the exceptions: an envelope that is too short, or one that fails authentication. */
  function Decrypt(a: Aead, envelope: Bytes): Option<Bytes> {
    if |envelope| < IV_LEN + TAG_LEN + 1 then None
    else a.open(envelope[..IV_LEN], envelope[IV_LEN..IV_LEN + TAG_LEN], envelope[IV_LEN + TAG_LEN..])
  }

  /** The three slices `decrypt` takes are the three parts `encrypt` joined. */
  lemma LayoutIsUnambiguous(iv: Bytes, tag: Bytes, ciphertext: Bytes)
    requires |iv| == IV_LEN && |tag| == TAG_LEN
    ensures var e := iv + tag + ciphertext;
      e[..IV_LEN] == iv && e[IV_LEN..IV_LEN + TAG_LEN] == tag && e[IV_LEN + TAG_LEN..] == ciphertext
  {}

  /** An envelope is the 12 bytes of the IV, the 16 of the tag, and a ciphertext as long as the text. */
  lemma EnvelopeLayout(a: Aead, iv: Bytes, plaintext: Bytes)
    requires Lawful(a) && |iv| == 12
    ensures var e, s := Encrypt(a, iv, plaintext), a.seal(iv, plaintext);
      |e| == 28 + |plaintext| && e[..12] == iv && e[12..28] == s.tag && e[28..] == s.ciphertext
  {
    var s := a.seal(iv, plaintext);
    LayoutIsUnambiguous(iv, s.tag, s.ciphertext);
  }

  /**
   * Round trip, with its exact condition: `decrypt` insists on at least one byte of
   * ciphertext, so the empty text is the one plaintext that does not come back.
   */
  lemma RoundTrip(a: Aead, iv: Bytes, plaintext: Bytes)
    requires Lawful(a) && |iv| == IV_LEN
    ensures Decrypt(a, Encrypt(a, iv, plaintext)) == Some(plaintext) <==> plaintext != []
  {
    var s := a.seal(iv, plaintext);
    LayoutIsUnambiguous(iv, s.tag, s.ciphertext);
  }

  /** Equal envelopes hold equal texts, so two records with the same ciphertext hold the same number. */
  lemma EncryptIsInjective(a: Aead, iv1: Bytes, p1: Bytes, iv2: Bytes, p2: Bytes)
    requires Lawful(a) && |iv1| == IV_LEN && |iv2| == IV_LEN
    requires Encrypt(a, iv1, p1) == Encrypt(a, iv2, p2)
    ensures iv1 == iv2 && p1 == p2
  {
    var s1, s2 := a.seal(iv1, p1), a.seal(iv2, p2);
    LayoutIsUnambiguous(iv1, s1.tag, s1.ciphertext);
    LayoutIsUnambiguous(iv2, s2.tag, s2.ciphertext);
  }

  /** What the rest of the model needs: a hash, and a sealed text that opens to what was sealed. */
  datatype Crypto = Crypto(hash: string -> string, seal: (Bytes, string) -> Bytes, open: Bytes -> Option<string>)

  ghost predicate Opens(c: Crypto) {
    forall iv: Bytes, p: string {:trigger c.seal(iv, p)} ::
        |iv| == IV_LEN && p != "" ==> c.open(c.seal(iv, p)) == Some(p)
  }

  /** The text encoding: `encode` is UTF-8, which `decode` inverts and which is empty only on the empty text. */
  datatype Encoding = Encoding(encode: string -> Bytes, decode: Bytes -> Option<string>)

  ghost predicate Inverts(e: Encoding) {
    forall p: string {:trigger e.encode(p)} :: e.decode(e.encode(p)) == Some(p) && (e.encode(p) == [] ==> p == "")
  }

  function DecodeOpened(e: Encoding, o: Option<Bytes>): Option<string> {
    match o case None => None case Some(b) => e.decode(b)
  }

  function FromEnvelope(a: Aead, e: Encoding, hash: string -> string): Crypto {
    Crypto(hash,
           (iv, p) => Encrypt(a, iv, e.encode(p)),
           env => DecodeOpened(e, Decrypt(a, env)))
  }

  /** The envelope above provides exactly the law the phone-record invariants rest on. */
  lemma EnvelopeOpens(a: Aead, e: Encoding, hash: string -> string)
    requires Lawful(a) && Inverts(e)
    ensures Opens(FromEnvelope(a, e, hash))
  {
    var c := FromEnvelope(a, e, hash);
    forall iv: Bytes, p: string | |iv| == IV_LEN && p != "" ensures c.open(c.seal(iv, p)) == Some(p) {
      RoundTrip(a, iv, e.encode(p));
    }
  }
}
