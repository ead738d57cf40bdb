/** The request key: the bytes that identify a request among all others. */
module RequestKey {
  import opened Types
  import opened Canonical
  import Utf8

  datatype Submission = Submission(
    owner: seq<byte>, purpose: seq<byte>, provider: seq<byte>, stream: bool, payload: string, variant: nat)

  const TAG: string := "a-novel/genai/request-key/v4"
  const ASYNC_MODE: string := "async"
  const STREAMED_MODE: string := "async-streamed"

  // ---------- integers as bytes ----------

  function Capacity(width: nat): nat {
    if width == 0 then 1 else 256 * Capacity(width - 1)
  }

  /** The last `width` bytes of the integer, the most significant first. */
  function BigEndian(n: nat, width: nat): (bs: seq<byte>)
    ensures |bs| == width
  {
    if width == 0 then [] else BigEndian(n / 256, width - 1) + [(n % 256) as byte]
  }

  function IntegerOf(bs: seq<byte>): nat {
    if bs == [] then 0 else IntegerOf(bs[..|bs| - 1]) * 256 + bs[|bs| - 1] as nat
  }

  lemma {:induction false} IntegerReads(n: nat, width: nat)
    requires n < Capacity(width)
    ensures IntegerOf(BigEndian(n, width)) == n
  {
    if width > 0 {
      IntegerReads(n / 256, width - 1);
      var bs := BigEndian(n, width);
      assert bs[..|bs| - 1] == BigEndian(n / 256, width - 1);
    }
  }

  // ---------- fields ----------

  /** A field's length fits its prefix. */
  predicate Sized(field: seq<byte>) {
    |field| < Capacity(8)
  }

  predicate AllSized(fields: seq<seq<byte>>) {
    forall i :: 0 <= i < |fields| ==> Sized(fields[i])
  }

  /** Each field behind its length. */
  function Preimage(fields: seq<seq<byte>>): seq<byte> {
    if fields == [] then [] else BigEndian(|fields[0]|, 8) + fields[0] + Preimage(fields[1..])
  }

  /** The fields that some bytes hold, each behind its length. */
  function FieldsIn(bs: seq<byte>): Option<seq<seq<byte>>>
    decreases |bs|
  {
    if bs == [] then Some([])
    else if |bs| < 8 || |bs| - 8 < IntegerOf(bs[..8]) then None
    else
      var n := IntegerOf(bs[..8]);
      var others := FieldsIn(bs[8 + n..]);
      if others.None? then None else Some([bs[8..8 + n]] + others.value)
  }

  /** The digested bytes decode back to the very fields they were made of. */
  lemma {:induction false} PreimageReads(fields: seq<seq<byte>>)
    requires AllSized(fields)
    ensures FieldsIn(Preimage(fields)) == Some(fields)
  {
    if fields != [] {
      var bs, n := Preimage(fields), |fields[0]|;
      IntegerReads(n, 8);
      assert bs[..8] == BigEndian(n, 8);
      assert bs[8..8 + n] == fields[0];
      assert bs[8 + n..] == Preimage(fields[1..]);
      PreimageReads(fields[1..]);
      assert [fields[0]] + fields[1..] == fields;
    }
  }

  lemma PreimageInjective(f: seq<seq<byte>>, g: seq<seq<byte>>)
    requires AllSized(f) && AllSized(g)
    ensures Preimage(f) == Preimage(g) <==> f == g
  {
    PreimageReads(f);
    PreimageReads(g);
  }

  lemma {:induction false} PreimageAppend(fields: seq<seq<byte>>, field: seq<byte>)
    ensures Preimage(fields + [field]) == Preimage(fields) + BigEndian(|field|, 8) + field
  {
    if fields == [] {
      assert fields + [field] == [field];
      assert [field][1..] == [];
    } else {
      assert (fields + [field])[1..] == fields[1..] + [field];
      PreimageAppend(fields[1..], field);
    }
  }

  // ---------- the key of a request ----------

  function FieldsOf(r: Submission): Option<seq<seq<byte>>> {
    var payload := CanonicalOf(r.payload);
    if payload.None? then None
    else Some([
      Utf8.Bytes(TAG), r.owner, r.purpose, r.provider,
      Utf8.Bytes(if r.stream then STREAMED_MODE else ASYNC_MODE),
      Utf8.Bytes(payload.value), BigEndian(r.variant, 4)])
  }

  /** What can be submitted: an I-JSON object, a 32-bit variant, and fields a slice can hold. */
  ghost predicate Submittable(r: Submission) {
    Payload(r.payload).Some? && r.variant < Capacity(4) && FieldsOf(r).Some? && AllSized(FieldsOf(r).value)
  }

  /** For one, an empty object. */
  lemma EmptyIsSubmittable() returns (r: Submission)
    ensures Submittable(r)
  {
    hide CanonicalOf, Payload, Utf8.Bytes, Capacity;
    r := Submission([], [], [], false, "{}", 0);
    EmptyPayload();
    CapacityGrows(4);
    CapacityGrows(8);
    BytesShort(TAG);
    BytesShort(ASYNC_MODE);
    BytesShort("{}");
    var fields := FieldsOf(r).value;
    forall i | 0 <= i < |fields| ensures |fields[i]| <= 112 {}
  }

  lemma {:induction false} CapacityGrows(width: nat)
    ensures width >= 2 ==> Capacity(width) >= 65536
  {
    if width > 2 { CapacityGrows(width - 1); }
  }

  lemma {:induction false} BytesShort(s: string)
    ensures |Utf8.Bytes(s)| <= 4 * |s|
  {
    if s != "" { BytesShort(s[1..]); }
  }

  /** The same request: the same fields, and payloads that differ only in their formatting. */
  ghost predicate SameRequest(a: Submission, b: Submission)
    requires Payload(a.payload).Some? && Payload(b.payload).Some?
  {
    && a.owner == b.owner && a.purpose == b.purpose && a.provider == b.provider
    && a.stream == b.stream && a.variant == b.variant
    && multiset(Payload(a.payload).value) == multiset(Payload(b.payload).value)
  }

  lemma ModesDiffer()
    ensures Utf8.Bytes(STREAMED_MODE) != Utf8.Bytes(ASYNC_MODE)
  {
    if Utf8.Bytes(STREAMED_MODE) == Utf8.Bytes(ASYNC_MODE) { Utf8.BytesInjective(STREAMED_MODE, ASYNC_MODE); }
  }

  /** Two submissions digest the same bytes exactly when they are the same request. */
  lemma PreimageIdentifies(a: Submission, b: Submission)
    requires Submittable(a) && Submittable(b)
    ensures Preimage(FieldsOf(a).value) == Preimage(FieldsOf(b).value) <==> SameRequest(a, b)
  {
    hide CanonicalOf, Payload, Utf8.Bytes, Preimage, BigEndian, Capacity;
    var f, g := FieldsOf(a).value, FieldsOf(b).value;
    PreimageInjective(f, g);
    SameCanonicalForm(a.payload, b.payload);
    if f == g {
      assert f[1] == g[1] && f[2] == g[2] && f[3] == g[3] && f[4] == g[4] && f[5] == g[5] && f[6] == g[6];
      ModesDiffer();
      Utf8.BytesInjective(CanonicalOf(a.payload).value, CanonicalOf(b.payload).value);
      IntegerReads(a.variant, 4);
      IntegerReads(b.variant, 4);
    }
  }

  ghost predicate Injective(hash: seq<byte> -> seq<byte>) {
    forall x, y :: hash(x) == hash(y) ==> x == y
  }

  /** A resend finds its own request's generation, and no other's, under any hash without collisions. */
  lemma KeyIdentifies(hash: seq<byte> -> seq<byte>, a: Submission, b: Submission)
    requires Submittable(a) && Submittable(b) && Injective(hash)
    ensures hash(Preimage(FieldsOf(a).value)) == hash(Preimage(FieldsOf(b).value)) <==> SameRequest(a, b)
  {
    PreimageIdentifies(a, b);
  }

  /** The request key, as the rest of this model compares keys: by the fields behind it. */
  function IdentityOf(r: Submission): Identity
    requires CanonicalOf(r.payload).Some?
  {
    Identity(r.owner, r.purpose, r.provider, r.stream, Utf8.Bytes(CanonicalOf(r.payload).value), r.variant)
  }

  lemma IdentityStandsForKey(hash: seq<byte> -> seq<byte>, a: Submission, b: Submission)
    requires Submittable(a) && Submittable(b) && Injective(hash)
    ensures IdentityOf(a) == IdentityOf(b) <==> hash(Preimage(FieldsOf(a).value)) == hash(Preimage(FieldsOf(b).value))
  {
    KeyIdentifies(hash, a, b);
    hide CanonicalOf, Payload, Utf8.Bytes, Preimage;
    SameCanonicalForm(a.payload, b.payload);
    if IdentityOf(a) == IdentityOf(b) {
      Utf8.BytesInjective(CanonicalOf(a.payload).value, CanonicalOf(b.payload).value);
    }
  }

  /** What exactly is digested: seven fields in this order, each behind the eight bytes of its length. */
  lemma KeyLayout(r: Submission)
    requires FieldsOf(r).Some?
    ensures var mode := Utf8.Bytes(if r.stream then "async-streamed" else "async");
      var payload := Utf8.Bytes(CanonicalOf(r.payload).value);
      var tag := Utf8.Bytes("a-novel/genai/request-key/v4");
      Preimage(FieldsOf(r).value) ==
        (BigEndian(|tag|, 8) + tag) + ((BigEndian(|r.owner|, 8) + r.owner) + ((BigEndian(|r.purpose|, 8) + r.purpose)
        + ((BigEndian(|r.provider|, 8) + r.provider) + ((BigEndian(|mode|, 8) + mode)
        + ((BigEndian(|payload|, 8) + payload) + (BigEndian(4, 8) + BigEndian(r.variant, 4)))))))
  {
    hide CanonicalOf, Payload, Utf8.Bytes, BigEndian;
    var f := FieldsOf(r).value;
    PreimageStep(f);
    PreimageStep(f[1..]);
    PreimageStep(f[2..]);
    PreimageStep(f[3..]);
    PreimageStep(f[4..]);
    PreimageStep(f[5..]);
    PreimageStep(f[6..]);
    assert f[1..][1..] == f[2..] && f[2..][1..] == f[3..] && f[3..][1..] == f[4..];
    assert f[4..][1..] == f[5..] && f[5..][1..] == f[6..] && f[6..][1..] == [];
    hide Preimage;
    assert Preimage([]) == [] by { PreimageNone(); }
    assert BigEndian(|f[6]|, 8) + f[6] + [] == BigEndian(|f[6]|, 8) + f[6];
  }

  lemma PreimageNone()
    ensures Preimage([]) == []
  {
  }

  lemma PreimageStep(f: seq<seq<byte>>)
    requires f != []
    ensures Preimage(f) == (BigEndian(|f[0]|, 8) + f[0]) + Preimage(f[1..])
  {
  }

  // ---------- the code's own steps ----------

  /** A running digest, by the bytes written to it. */
  class Digest {
    var fed: seq<byte>

    constructor ()
      ensures fed == []
    {
      fed := [];
    }

    method Write(bs: seq<byte>)
      modifies this
      ensures fed == old(fed) + bs
    {
      fed := fed + bs;
    }
  }

  method PutLength(buffer: array<byte>, n: nat)
    requires buffer.Length == 8
    modifies buffer
    ensures buffer[..] == BigEndian(n, 8)
  {
    var i, left := 8, n;
    while i > 0
      invariant 0 <= i <= 8
      invariant BigEndian(n, 8) == BigEndian(left, i) + buffer[i..]
    {
      i := i - 1;
      buffer[i] := (left % 256) as byte;
      left := left / 256;
      assert buffer[i..] == [buffer[i]] + buffer[i + 1..];
    }
    assert BigEndian(left, 0) == [];
  }

  /** Feeds each field's length, then the field, through one buffer. */
  method Feed(fields: seq<seq<byte>>) returns (digest: Digest)
    ensures fresh(digest) && digest.fed == Preimage(fields)
  {
    digest := new Digest();
    var length := new byte[8];
    var i := 0;
    while i < |fields|
      invariant 0 <= i <= |fields| && fresh(digest) && fresh(length) && length.Length == 8
      invariant digest.fed == Preimage(fields[..i])
    {
      PutLength(length, |fields[i]|);
      digest.Write(length[..]);
      digest.Write(fields[i]);
      PreimageAppend(fields[..i], fields[i]);
      assert fields[..i] + [fields[i]] == fields[..i + 1];
      i := i + 1;
    }
    assert fields[..i] == fields;
  }

  method DigestRequest(r: Submission) returns (digest: Option<Digest>)
    ensures digest.None? <==> Payload(r.payload).None?
    ensures digest.Some? ==>
      fresh(digest.value) && FieldsOf(r).Some? && digest.value.fed == Preimage(FieldsOf(r).value)
  {
    hide Preimage, Utf8.Bytes, BigEndian;
    var payload := CanonicalPayload(r.payload);
    if payload.None? {
      return None;
    }
    var running := Feed([
      Utf8.Bytes(TAG), r.owner, r.purpose, r.provider,
      Utf8.Bytes(if r.stream then STREAMED_MODE else ASYNC_MODE),
      Utf8.Bytes(payload.value), BigEndian(r.variant, 4)]);
    digest := Some(running);
  }
}
