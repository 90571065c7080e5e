/** The traceflow_meta control block and its HMAC trailer (internal/tfmeta). */
module Tfmeta {
  import opened Wire

  const MAGIC: u32 := 0x54464C4F

  type RunId = s: Bytes | |s| == 16 witness Zeros(16)

  datatype Meta = Meta(id: RunId, deliver: bool, needResponse: bool, timestamp: u64)

  type Digest = s: Bytes | |s| == 32 witness Zeros(32)

  /** HMAC-SHA256 as an arbitrary function of (core, key) with 32 octets of output. */
  type Hmac = (Bytes, Bytes) -> Digest

  function Flag(b: bool): byte { if b then 1 else 0 }

  /** The wire form of a block. */
  function Encode(m: Meta): (b: Bytes)
    ensures |b| == META_SIZE
  {
    [0x54, 0x46, 0x4C, 0x4F] + m.id + [Flag(m.deliver)] + [Flag(m.needResponse)] + PutLE64(m.timestamp)
  }

  /** `Meta.Marshal`: the block written field by field into a zeroed buffer. */
  method Marshal(m: Meta) returns (out: Bytes)
    ensures out == Encode(m)
  {
    hide PutLE64;
    var buf := new byte[META_SIZE](_ => 0);
    WriteFirst(buf, [0x54, 0x46, 0x4C, 0x4F]);
    WriteAt(buf, 4, m.id);
    if m.deliver {
      WriteAt(buf, 20, [1]);
    } else {
      Skipped(buf, 20, 1);
    }
    if m.needResponse {
      WriteAt(buf, 21, [1]);
    } else {
      Skipped(buf, 21, 1);
    }
    WriteAt(buf, 22, PutLE64(m.timestamp));
    out := buf[..];
  }

  /** `Unmarshal`: flags are true only for the octet 1. */
  function Unmarshal(b: Bytes): Option<Meta> {
    if |b| < META_SIZE || U32At(b, 0) != MAGIC then None
    else Some(Meta(b[4..20], b[20] == 1, b[21] == 1, LE64At(b, 22)))
  }

  /** `Meta.Signed`: the core, followed by its HMAC when there is a key. */
  function Signed(h: Hmac, m: Meta, key: Bytes): (p: Bytes) {
    if |key| == 0 then Encode(m) else Encode(m) + h(Encode(m), key)
  }

  predicate Verify(h: Hmac, payload: Bytes, key: Bytes) {
    |key| == 0 || (|payload| >= SIGNED_SIZE && h(payload[..META_SIZE], key) == payload[META_SIZE..SIGNED_SIZE])
  }

  /** The four magic octets and nothing else pass the level-2 filter; the first lacks the VXLAN I bit. */
  lemma MagicOctets(b: Bytes)
    requires |b| >= 4
    ensures U32At(b, 0) == MAGIC <==> b[..4] == [0x54, 0x46, 0x4C, 0x4F]
    ensures U32At(b, 0) == MAGIC ==> b[0] == 0x54 && !HasVni(b[0])
  {
    if U32At(b, 0) == MAGIC {
      LowHalf(U16At(b, 2), U16At(b, 0), 0x4C4F, 0x5446);
      LowOctet(b[3], b[2], 0x4F, 0x4C);
      LowOctet(b[1], b[0], 0x46, 0x54);
    }
  }

  /** Decoding undoes encoding, whatever follows the block. */
  lemma EncodeThenUnmarshal(m: Meta, rest: Bytes)
    ensures Unmarshal(Encode(m) + rest) == Some(m)
  {
    var b := Encode(m) + rest;
    assert b[4..20] == m.id;
    assert b[22..30] == PutLE64(m.timestamp);
    assert LE64At(b, 22) == LE64At(b[22..30], 0);
  }

  /** The timestamp octets are read back as written. */
  lemma TimestampOctets(b: Bytes)
    requires |b| == META_SIZE
    ensures PutLE64(LE64At(b, 22)) == b[22..30]
  {
    hide PutLE64, LE64At;
    var t := PutLE64(LE64At(b, 22));
    LE64Injective(t, 0, b, 22);
    assert t[0..8] == t;
  }

  lemma EncodedFlags(m: Meta)
    ensures Encode(m)[20] == Flag(m.deliver) && Encode(m)[21] == Flag(m.needResponse)
  {
    hide PutLE64;
  }

  lemma BlockPieces(b: Bytes)
    requires |b| == META_SIZE
    ensures b == b[..4] + b[4..20] + [b[20]] + [b[21]] + b[22..30]
  {
  }

  /** Encoding undoes decoding exactly when both flag octets are 0 or 1. */
  lemma UnmarshalThenEncode(b: Bytes)
    requires |b| == META_SIZE && Unmarshal(b).Some?
    ensures Encode(Unmarshal(b).value) == b <==> b[20] <= 1 && b[21] <= 1
  {
    hide PutLE64, LE64At;
    EncodedFlags(Unmarshal(b).value);
    if b[20] <= 1 && b[21] <= 1 {
      MagicOctets(b);
      TimestampOctets(b);
      BlockPieces(b);
    }
  }

  /** What the client signs decodes to what it meant and verifies under the same key. */
  lemma SignedIsAuthentic(h: Hmac, m: Meta, key: Bytes, rest: Bytes)
    ensures Unmarshal(Signed(h, m, key) + rest) == Some(m)
    ensures Verify(h, Signed(h, m, key) + rest, key)
    ensures |Signed(h, m, key)| == if |key| == 0 then META_SIZE else SIGNED_SIZE
  {
    var p := Signed(h, m, key) + rest;
    if |key| == 0 {
      EncodeThenUnmarshal(m, rest);
    } else {
      var d := h(Encode(m), key);
      EncodeThenUnmarshal(m, d + rest);
      assert p == Encode(m) + (d + rest);
      assert p[..META_SIZE] == Encode(m) && p[META_SIZE..SIGNED_SIZE] == d;
    }
  }

  // ---- sanitize (agent/responder.go) ----

  /** A payload with both flag octets cleared and, under a key, signed again. */
  function Sanitized(h: Hmac, key: Bytes, p: Bytes): (r: Bytes)
    ensures |r| == |p|
  {
    var c := if |p| >= META_SIZE then p[20 := 0][21 := 0] else p;
    if |key| > 0 && |c| >= SIGNED_SIZE then Patched(c, META_SIZE, h(c[..META_SIZE], key)) else c
  }

  /** `responder.sanitize`: overwrite a copy. */
  method Sanitize(h: Hmac, key: Bytes, p: Bytes) returns (r: Bytes)
    ensures r == Sanitized(h, key, p)
  {
    var out := new byte[|p|](i requires 0 <= i < |p| => p[i]);
    assert out[..] == p;
    if out.Length >= META_SIZE {
      out[20] := 0;
      out[21] := 0;
      assert out[..] == p[20 := 0][21 := 0];
    }
    if |key| > 0 && out.Length >= SIGNED_SIZE {
      Overwrite(out, META_SIZE, h(out[..META_SIZE], key));
    }
    r := out[..];
  }

  /**
   * The echoed payload: same run id, timestamp and trailing octets, both flags clear, and still
   * authentic if the request was.
   */
  lemma SanitizedIsAuthentic(h: Hmac, key: Bytes, p: Bytes)
    requires Unmarshal(p).Some? && Verify(h, p, key)
    ensures var r := Sanitized(h, key, p);
            && Unmarshal(r) == Some(Unmarshal(p).value.(deliver := false, needResponse := false))
            && Verify(h, r, key)
            && r[20] == 0 && r[21] == 0 && r[0] == p[0]
            && (|key| == 0 ==> r[META_SIZE..] == p[META_SIZE..])
            && (|key| > 0 ==> r[SIGNED_SIZE..] == p[SIGNED_SIZE..])
  {
    var c := p[20 := 0][21 := 0];
    var r := Sanitized(h, key, p);
    assert c[..4] == p[..4] && c[4..20] == p[4..20] && c[22..30] == p[22..30];
    assert r[..META_SIZE] == c[..META_SIZE];
    assert r[4..20] == r[..META_SIZE][4..20] == c[4..20];
    forall i | 0 <= i < META_SIZE ensures r[i] == c[i] {
      assert r[i] == r[..META_SIZE][i] && c[i] == c[..META_SIZE][i];
    }
    if |key| > 0 {
      assert r[META_SIZE..SIGNED_SIZE] == h(c[..META_SIZE], key);
    }
  }
}
