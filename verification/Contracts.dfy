/**
 packages/contracts: the projection of a result package that is signed, and the primitives
 (signature, digest, base64, number conversion) as functions known only by their defining laws.
 */
module Contracts {
  import opened Json
  import opened Wrappers

  newtype byte = x: int | 0 <= x < 256

  type Bytes = seq<byte>
  type PrivateKey = nat

  /** The canonical object: its entries in insertion order. */
  type Canonical = seq<(Key, Json)>

  const SIGNED_KEYS: seq<Key> := [
    MESSAGE_TYPE, REQUEST_ID, RESULT_VERSION, SELLER_ID, SUBAGENT_ID, VERIFICATION,
    STATUS, OUTPUT, ARTIFACTS, ERROR, TIMING, USAGE
  ]

  /**
   What the JavaScript host offers; `Lawful` is all that is assumed of it. `numberOf` is `Number(v)` where that does not
   throw, None for what is not finite; `bufferOf` is `Buffer.from(v, "base64")` for an array or an object, None where
   that throws.
   */
  datatype Host = Host(
    publicPem: PrivateKey -> string,
    sign: (PrivateKey, Canonical) -> string,
    verify: (string, Canonical, Bytes) -> bool,
    sha256: Bytes -> string,
    toBase64: Bytes -> string,
    fromBase64: string -> Bytes,
    utf8: string -> Bytes,
    numberOf: Json -> Option<int>,
    bufferOf: Json -> Option<Bytes>
  ) {
    ghost predicate Lawful() {
      && (forall k, m :: verify(publicPem(k), m, fromBase64(sign(k, m))))
      && (forall k, m :: sign(k, m) != "")
      && (forall k :: publicPem(k) != "")
      && (forall b :: fromBase64(toBase64(b)) == b)
      && (forall b :: sha256(b) != "")
      && (forall n :: numberOf(Num(n)) == Some(n))
    }
  }

  /** `Buffer.from(v, "base64")`, which throws on what is neither a string nor an object. */
  function BufferOf(h: Host, v: Json): Option<Bytes> {
    match v
    case Str(s) => Some(h.fromBase64(s))
    case Arr(_) => h.bufferOf(v)
    case Obj(_) => h.bufferOf(v)
    case _ => None
  }

  /** The canonical object: the listed keys the package has. */
  function ObjectOver(keys: seq<Key>, r: Record): Canonical {
    if keys == [] then []
    else (if keys[0] in r then [(keys[0], r[keys[0]])] else []) + ObjectOver(keys[1..], r)
  }

  /** The entries `JSON.stringify` writes: those whose value is not undefined. */
  function Written(c: Canonical): Canonical {
    if c == [] then [] else (if c[0].1 == Undefined then [] else [c[0]]) + Written(c[1..])
  }

  function CanonicalOver(keys: seq<Key>, r: Record): Canonical {
    if keys == [] then []
    else (if Get(r, keys[0]) == Undefined then [] else [(keys[0], Get(r, keys[0]))]) + CanonicalOver(keys[1..], r)
  }

  /** What is signed of a package. */
  function CanonicalOf(r: Record): Canonical {
    CanonicalOver(SIGNED_KEYS, r)
  }

  lemma {:induction false} WrittenObject(keys: seq<Key>, r: Record)
    ensures Written(ObjectOver(keys, r)) == CanonicalOver(keys, r)
  {
    if keys != [] {
      var rest := ObjectOver(keys[1..], r);
      WrittenObject(keys[1..], r);
      if keys[0] in r {
        assert ([(keys[0], r[keys[0]])] + rest)[1..] == rest;
      } else {
        assert [] + rest == rest;
      }
    }
  }

  /**
   canonicalizeResultPackageForSignature: the loop over the fixed key list; what is written of it is what is signed.
   */
  method Canonicalize(r: Record) returns (canonical: Canonical)
    ensures canonical == ObjectOver(SIGNED_KEYS, r) && Written(canonical) == CanonicalOf(r)
    ensures forall k, v :: (k, v) in canonical <==>
              && k in r && r[k] == v
              && (k == MESSAGE_TYPE || k == REQUEST_ID || k == RESULT_VERSION || k == SELLER_ID || k == SUBAGENT_ID
                  || k == VERIFICATION || k == STATUS || k == OUTPUT || k == ARTIFACTS || k == ERROR || k == TIMING
                  || k == USAGE)
  {
    hide SIGNED_KEYS, Written, ObjectOver;
    canonical := [];
    for i := 0 to |SIGNED_KEYS|
      invariant canonical + ObjectOver(SIGNED_KEYS[i..], r) == ObjectOver(SIGNED_KEYS, r)
    {
      var key := SIGNED_KEYS[i];
      ObjectFrom(SIGNED_KEYS, i, r, canonical);
      if key in r {
        canonical := canonical + [(key, r[key])];
      }
    }
    ObjectOfNone(r, canonical);
    WrittenObject(SIGNED_KEYS, r);
    ObjectHolds(SIGNED_KEYS, r);
    KeysAre();
  }

  lemma {:induction false} ObjectHolds(keys: seq<Key>, r: Record)
    ensures forall k, v :: (k, v) in ObjectOver(keys, r) <==> k in keys && k in r && r[k] == v
  {
    if keys != [] {
      ObjectHolds(keys[1..], r);
      assert keys == [keys[0]] + keys[1..];
    }
  }

  lemma KeysAre()
    ensures forall k :: k in SIGNED_KEYS <==>
              k == MESSAGE_TYPE || k == REQUEST_ID || k == RESULT_VERSION || k == SELLER_ID || k == SUBAGENT_ID
              || k == VERIFICATION || k == STATUS || k == OUTPUT || k == ARTIFACTS || k == ERROR || k == TIMING
              || k == USAGE
  {
  }

  lemma ObjectFrom(keys: seq<Key>, i: nat, r: Record, before: Canonical)
    requires i < |keys|
    ensures before + ObjectOver(keys[i..], r) ==
            (if keys[i] in r then before + [(keys[i], r[keys[i]])] else before) + ObjectOver(keys[i + 1..], r)
  {
    assert keys[i..][1..] == keys[i + 1..];
  }

  lemma ObjectOfNone(r: Record, before: Canonical)
    ensures before + ObjectOver(SIGNED_KEYS[|SIGNED_KEYS|..], r) == before
  {
    hide SIGNED_KEYS;
  }

  ghost predicate AgreeOn(keys: seq<Key>, a: Record, b: Record) {
    forall k | k in keys :: Get(a, k) == Get(b, k)
  }

  lemma {:induction false} CanonicalKeys(keys: seq<Key>, r: Record)
    ensures forall e | e in CanonicalOver(keys, r) :: e.0 in keys
  {
    if keys != [] {
      CanonicalKeys(keys[1..], r);
    }
  }

  lemma SameHeadEntry(x: (Key, Json), y: (Key, Json), s: Canonical, t: Canonical)
    ensures [x] + s == [y] + t <==> x == y && s == t
  {
    assert ([x] + s)[1..] == s && ([y] + t)[1..] == t;
    assert ([x] + s)[0] == x && ([y] + t)[0] == y;
  }

  /** Two packages have the same signed entries over a duplicate-free key list exactly when they agree on all of it. */
  lemma {:induction false} CanonicalOverAgrees(keys: seq<Key>, a: Record, b: Record)
    requires forall i, j | 0 <= i < j < |keys| :: keys[i] != keys[j]
    ensures CanonicalOver(keys, a) == CanonicalOver(keys, b) <==> AgreeOn(keys, a, b)
  {
    if keys != [] {
      var k, rest := keys[0], keys[1..];
      CanonicalOverAgrees(rest, a, b);
      CanonicalKeys(rest, a);
      CanonicalKeys(rest, b);
      assert keys == [k] + rest && k !in rest;
      var va, vb, ra, rb := Get(a, k), Get(b, k), CanonicalOver(rest, a), CanonicalOver(rest, b);
      assert CanonicalOver(keys, a) == (if va == Undefined then [] else [(k, va)]) + ra;
      assert CanonicalOver(keys, b) == (if vb == Undefined then [] else [(k, vb)]) + rb;
      assert AgreeOn(keys, a, b) <==> va == vb && AgreeOn(rest, a, b);
      assert [] + ra == ra && [] + rb == rb;
      hide CanonicalOver, AgreeOn, Get;
      SameHeadEntry((k, va), (k, vb), ra, rb);
      if va == Undefined && vb != Undefined {
        assert ([(k, vb)] + rb)[0] == (k, vb) && (k, vb) !in ra;
      } else if va != Undefined && vb == Undefined {
        assert ([(k, va)] + ra)[0] == (k, va) && (k, va) !in rb;
      }
    }
  }

  lemma SignedKeysAgree(a: Record, b: Record)
    ensures CanonicalOf(a) == CanonicalOf(b) <==> AgreeOn(SIGNED_KEYS, a, b)
  {
    SignedKeysDiffer();
    hide AgreeOn, CanonicalOver, SIGNED_KEYS;
    CanonicalOverAgrees(SIGNED_KEYS, a, b);
  }

  lemma TwelveKeys(a: Record, b: Record)
    ensures AgreeOn(SIGNED_KEYS, a, b) <==>
            && Get(a, MESSAGE_TYPE) == Get(b, MESSAGE_TYPE) && Get(a, REQUEST_ID) == Get(b, REQUEST_ID)
            && Get(a, RESULT_VERSION) == Get(b, RESULT_VERSION) && Get(a, SELLER_ID) == Get(b, SELLER_ID)
            && Get(a, SUBAGENT_ID) == Get(b, SUBAGENT_ID) && Get(a, VERIFICATION) == Get(b, VERIFICATION)
            && Get(a, STATUS) == Get(b, STATUS) && Get(a, OUTPUT) == Get(b, OUTPUT)
            && Get(a, ARTIFACTS) == Get(b, ARTIFACTS) && Get(a, ERROR) == Get(b, ERROR)
            && Get(a, TIMING) == Get(b, TIMING) && Get(a, USAGE) == Get(b, USAGE)
  {
    hide Get, SIGNED_KEYS;
    KeysAre();
    if AgreeOn(SIGNED_KEYS, a, b) {
      assert MESSAGE_TYPE in SIGNED_KEYS && REQUEST_ID in SIGNED_KEYS && RESULT_VERSION in SIGNED_KEYS;
      assert SELLER_ID in SIGNED_KEYS && SUBAGENT_ID in SIGNED_KEYS && VERIFICATION in SIGNED_KEYS;
      assert STATUS in SIGNED_KEYS && OUTPUT in SIGNED_KEYS && ARTIFACTS in SIGNED_KEYS;
      assert ERROR in SIGNED_KEYS && TIMING in SIGNED_KEYS && USAGE in SIGNED_KEYS;
    }
  }

  /** The signature covers twelve properties, all of them, and nothing else; undefined counts as absent. */
  lemma SignedBytesAgree(a: Record, b: Record)
    ensures CanonicalOf(a) == CanonicalOf(b) <==>
            && Get(a, MESSAGE_TYPE) == Get(b, MESSAGE_TYPE) && Get(a, REQUEST_ID) == Get(b, REQUEST_ID)
            && Get(a, RESULT_VERSION) == Get(b, RESULT_VERSION) && Get(a, SELLER_ID) == Get(b, SELLER_ID)
            && Get(a, SUBAGENT_ID) == Get(b, SUBAGENT_ID) && Get(a, VERIFICATION) == Get(b, VERIFICATION)
            && Get(a, STATUS) == Get(b, STATUS) && Get(a, OUTPUT) == Get(b, OUTPUT)
            && Get(a, ARTIFACTS) == Get(b, ARTIFACTS) && Get(a, ERROR) == Get(b, ERROR)
            && Get(a, TIMING) == Get(b, TIMING) && Get(a, USAGE) == Get(b, USAGE)
  {
    SignedKeysAgree(a, b);
    TwelveKeys(a, b);
    hide *;
  }

  lemma SignedKeysDiffer()
    ensures forall i, j | 0 <= i < j < |SIGNED_KEYS| :: SIGNED_KEYS[i] != SIGNED_KEYS[j]
  {
  }

  /** Adding properties outside the list, as signing does, leaves the signed bytes alone. */
  lemma ExtraKeysUnsigned(r: Record, extra: Record)
    requires forall k | k in extra :: k !in SIGNED_KEYS
    ensures CanonicalOf(r + extra) == CanonicalOf(r)
  {
    forall k | k in SIGNED_KEYS ensures Get(r + extra, k) == Get(r, k) {
    }
    SignedKeysAgree(r + extra, r);
    hide CanonicalOf;
  }

  // ----- the assumed laws can hold -----

  function Letters(b: Bytes): string {
    seq(|b|, i requires 0 <= i < |b| => (b[i] as int) as char)
  }

  function Unlettered(s: string): Bytes {
    seq(|s|, i requires 0 <= i < |s| => ((s[i] as int) % 256) as byte)
  }

  /** A toy host: a constant signature and digest, and one character per byte. */
  function ToyHost(): Host {
    Host(_ => "key", (_, _) => "signature", (_, _, _) => true, _ => "digest", Letters, Unlettered, Unlettered,
         (v: Json) => if v.Num? then Some(v.n) else None, _ => None)
  }

  lemma LettersInvert(b: Bytes)
    ensures Unlettered(Letters(b)) == b
  {
    forall i | 0 <= i < |b| ensures Unlettered(Letters(b))[i] == b[i] {
      assert Letters(b)[i] == (b[i] as int) as char;
    }
  }

  /** The laws assumed of the host are satisfiable. */
  lemma LawsCanHold()
    ensures ToyHost().Lawful()
  {
    forall b ensures ToyHost().fromBase64(ToyHost().toBase64(b)) == b {
      LettersInvert(b);
    }
  }
}
