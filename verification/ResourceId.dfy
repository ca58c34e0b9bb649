/** The resource-id codec: a 32-byte name for a token on a chain. */
module ResourceId {
  import opened Results

  newtype byte = x: int | 0 <= x < 256
  newtype ChainId = x: int | 0 <= x < 65536

  type Bytes = seq<byte>

  const SIZE: nat := 32
  const MAX_ID: nat := 28

  datatype Resource = Resource(chain: ChainId, dex: byte, id: Bytes)

  predicate Fitting(r: Resource) { |r.id| <= MAX_ID }

  function Low(chain: ChainId): byte { (chain as int % 256) as byte }

  function High(chain: ChainId): byte { (chain as int / 256) as byte }

  function FromLittleEndian(low: byte, high: byte): ChainId { (high as int * 256 + low as int) as ChainId }

  /** The layout: length, zero padding, id, dex, chain. */
  function Encoded(r: Resource): (s: Bytes)
    requires Fitting(r)
    ensures |s| == SIZE
  {
    [|r.id| as byte] + seq(MAX_ID - |r.id|, i => 0) + r.id + [r.dex] + [Low(r.chain), High(r.chain)]
  }

  /** Writes the parts into a zeroed array, as slices. */
  method DeriveResourceId(r: Resource) returns (res: Result<array<byte>, string>)
    ensures res.Ok? <==> Fitting(r)
    ensures res.Ok? ==> res.value.Length == SIZE && res.value[..] == Encoded(r)
  {
    var n := |r.id|;
    if n > 28 {
      return Err("id is too long");
    }
    var a := new byte[32](i => 0);
    a[30], a[31] := Low(r.chain), High(r.chain);
    a[29] := r.dex;
    for i := 0 to n
      invariant forall j :: 0 <= j < 29 - n ==> a[j] == 0
      invariant forall j :: 0 <= j < i ==> a[29 - n + j] == r.id[j]
      invariant a[29] == r.dex && a[30] == Low(r.chain) && a[31] == High(r.chain)
    {
      a[29 - n + i] := r.id[i];
    }
    a[0] := n as byte;
    LayoutIsEncoded(r, a[..]);
    return Ok(a);
  }

  predicate Layout(r: Resource, s: Bytes)
    requires Fitting(r)
  {
    var n := |r.id|;
    && |s| == SIZE && s[0] == n as byte
    && (forall j :: 1 <= j < 29 - n ==> s[j] == 0)
    && (forall j :: 0 <= j < n ==> s[29 - n + j] == r.id[j])
    && s[29] == r.dex && s[30] == Low(r.chain) && s[31] == High(r.chain)
  }

  lemma LayoutIsEncoded(r: Resource, s: Bytes)
    requires Fitting(r) && Layout(r, s)
    ensures s == Encoded(r)
  {
    var n, e := |r.id|, Encoded(r);
    forall j | 0 <= j < SIZE ensures s[j] == e[j] {
      if 29 - n <= j < 29 {
        assert s[j] == s[29 - n + (j - (29 - n))];
      }
    }
  }

  /** Slicing by the length byte panics beyond the layout. */
  function Decode(s: Bytes): Result<Resource, string>
    requires |s| == SIZE
  {
    var n := s[0] as nat;
    if n > 29 then Err("slice index")
    else Ok(Resource(FromLittleEndian(s[30], s[31]), s[29], s[29 - n..29]))
  }

  lemma ChainRoundTrip(chain: ChainId)
    ensures FromLittleEndian(Low(chain), High(chain)) == chain
  {
  }

  lemma BytesRoundTrip(low: byte, high: byte)
    ensures Low(FromLittleEndian(low, high)) == low && High(FromLittleEndian(low, high)) == high
  {
  }

  /** Byte by byte: the length, zeros, the id right-aligned before byte 29, the dex byte, and the chain id with
      its low byte first. */
  lemma BytesOfAnId(r: Resource)
    requires Fitting(r)
    ensures var n, e := |r.id|, Encoded(r);
            && e[0] as nat == n
            && (forall j :: 1 <= j < 29 - n ==> e[j] == 0)
            && (forall j :: 0 <= j < n ==> e[29 - n + j] == r.id[j])
            && e[29] == r.dex
            && e[30] as nat + 256 * e[31] as nat == r.chain as nat
  {
  }

  /** Decoding a derived id returns the same triple. */
  lemma RoundTrip(r: Resource)
    requires Fitting(r)
    ensures Decode(Encoded(r)) == Ok(r)
  {
    var n, e := |r.id|, Encoded(r);
    ChainRoundTrip(r.chain);
    assert e[29 - n..29] == r.id;
  }

  /** Derivation is injective. */
  lemma DeriveIsInjective(r: Resource, q: Resource)
    requires Fitting(r) && Fitting(q) && Encoded(r) == Encoded(q)
    ensures r == q
  {
    RoundTrip(r);
    RoundTrip(q);
  }

  predicate Canonical(s: Bytes)
    requires |s| == SIZE
  {
    var n := s[0] as nat;
    n <= MAX_ID && forall j :: 1 <= j < 29 - n ==> s[j] == 0
  }

  lemma CanonicalRederives(s: Bytes)
    requires |s| == SIZE && Canonical(s)
    ensures Decode(s).Ok? && Fitting(Decode(s).value) && Encoded(Decode(s).value) == s
  {
    hide Encoded;
    BytesRoundTrip(s[30], s[31]);
    LayoutIsEncoded(Decode(s).value, s);
  }

  lemma EncodedIsCanonical(r: Resource)
    requires Fitting(r)
    ensures Canonical(Encoded(r))
  {
    var n, e := |r.id|, Encoded(r);
    assert e[0] as nat == n;
    assert forall j :: 1 <= j < 29 - n ==> e[j] == 0;
  }

  /** Re-deriving a decoded id restores it exactly when the length byte is at most 28 and the padding
      is zero. */
  lemma RederiveIffCanonical(s: Bytes)
    requires |s| == SIZE
    ensures (Decode(s).Ok? && Fitting(Decode(s).value) && Encoded(Decode(s).value) == s) <==> Canonical(s)
  {
    hide Encoded, Canonical;
    if Canonical(s) {
      CanonicalRederives(s);
    } else if Decode(s).Ok? && Fitting(Decode(s).value) {
      EncodedIsCanonical(Decode(s).value);
    }
  }

  /** Length 29 decodes but cannot be derived again; longer lengths do not decode. */
  lemma DecodeFailsOnLongLengths(s: Bytes)
    requires |s| == SIZE
    ensures Decode(s).Ok? <==> s[0] as nat <= 29
    ensures Decode(s).Ok? ==> |Decode(s).value.id| == s[0] as nat
  {
  }
}
