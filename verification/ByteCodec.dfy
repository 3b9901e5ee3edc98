/** Little-endian numbers and length-prefixed strings in byte buffers. */
module ByteCodec {
  import opened MachineInts

  type byte = u8
  type bytes = seq<byte>

  const U32_RANGE: nat := 0x1_0000_0000
  const U32_BYTES: nat := 4
  const U64_BYTES: nat := 8

  datatype DecodeError =
    | TooShort
    | TruncatedAtName
    | TruncatedAtSymbol
    | TruncatedAtUri
    | TruncatedAtCreators
    | TruncatedAtIsMutable
    | LengthPastEnd
    | InvalidUtf8

  datatype Result<+T> = Ok(value: T) | Err(error: DecodeError) {
    predicate IsFailure() {
      Err?
    }

    function PropagateFailure<U>(): Result<U>
      requires Err?
    {
      Err(error)
    }

    function Extract(): T
      requires Ok?
    {
      value
    }
  }

  // ---------- Little-endian numbers ----------

  function Pow256(k: nat): (p: nat)
    ensures p >= 1
  {
    if k == 0 then 1 else 256 * Pow256(k - 1)
  }

  /** The little-endian number in data[offset..offset + k]. */
  function LeAt(data: bytes, offset: nat, k: nat): (n: nat)
    requires offset + k <= |data|
    ensures n < Pow256(k)
    decreases k
  {
    if k == 0 then 0 else data[offset] as int + 256 * LeAt(data, offset + 1, k - 1)
  }

  function ToLe(n: nat, k: nat): (b: bytes)
    requires n < Pow256(k)
    ensures |b| == k
  {
    if k == 0 then [] else [(n % 256) as byte] + ToLe(n / 256, k - 1)
  }

  lemma {:induction false} LeAtEncoded(data: bytes, offset: nat, n: nat, k: nat)
    requires n < Pow256(k) && offset + k <= |data|
    requires forall i | 0 <= i < k :: data[offset + i] == ToLe(n, k)[i]
    ensures LeAt(data, offset, k) == n
    decreases k
  {
    if k > 0 {
      var high := ToLe(n / 256, k - 1);
      forall i | 0 <= i < |high|
        ensures data[offset + 1 + i] == high[i]
      {
        assert data[offset + (i + 1)] == ToLe(n, k)[i + 1];
      }
      LeAtEncoded(data, offset + 1, n / 256, k - 1);
      assert data[offset + 0] == ToLe(n, k)[0];
    }
  }

  /** Each further byte counts 256 times as much as the one before it. */
  lemma {:induction false} HigherByte(data: bytes, offset: nat, k: nat)
    requires offset + k + 1 <= |data|
    ensures LeAt(data, offset, k + 1) == LeAt(data, offset, k) + Pow256(k) * data[offset + k] as int
    decreases k
  {
    if k == 0 {
      assert LeAt(data, offset + 1, 0) == 0;
    } else {
      HigherByte(data, offset + 1, k - 1);
      var high, weight := data[offset + k] as int, Pow256(k - 1);
      assert 256 * (weight * high) == Pow256(k) * high;
    }
  }

  lemma LowByte(low: byte, high: nat)
    ensures (low as int + 256 * high) % 256 == low as int && (low as int + 256 * high) / 256 == high
  {
  }

  lemma {:induction false} EncodedLeAt(data: bytes, offset: nat, k: nat)
    requires offset + k <= |data|
    ensures ToLe(LeAt(data, offset, k), k) == data[offset..offset + k]
    decreases k
  {
    if k > 0 {
      EncodedLeAt(data, offset + 1, k - 1);
      LowByte(data[offset], LeAt(data, offset + 1, k - 1));
      assert data[offset..offset + k] == [data[offset]] + data[offset + 1..offset + k];
    }
  }

  lemma Pow256Values()
    ensures Pow256(U32_BYTES) == U32_RANGE && Pow256(U64_BYTES) == TWO_64
  {
    assert Pow256(4) == 256 * (256 * (256 * (256 * Pow256(0))));
    assert Pow256(8) == 256 * (256 * (256 * (256 * Pow256(4))));
  }

  /** The u32 stored at data[offset..offset + 4]. */
  function U32At(data: bytes, offset: nat): (n: nat)
    requires offset + 4 <= |data|
    ensures n < U32_RANGE
  {
    Pow256Values();
    LeAt(data, offset, U32_BYTES)
  }

  /** Reads a u64 at an offset; refuses when fewer than eight bytes are there. */
  function ExtractU64Le(data: bytes, offset: nat): (r: Result<u64>)
    ensures r.Ok? <==> offset + 8 <= |data|
  {
    if |data| < offset + 8 then Err(TooShort)
    else
      Pow256Values();
      Ok(LeAt(data, offset, U64_BYTES) as u64)
  }

  /** Every u64 is read back from its eight bytes, wherever they stand. */
  lemma ExtractU64LeRoundTrip(before: bytes, n: u64, after: bytes)
    ensures (n as int) < Pow256(U64_BYTES)
    ensures ExtractU64Le(before + ToLe(n as int, U64_BYTES) + after, |before|) == Ok(n)
  {
    Pow256Values();
    LeAtEncoded(before + ToLe(n as int, U64_BYTES) + after, |before|, n as int, U64_BYTES);
  }

  // ---------- Length-prefixed strings ----------

  predicate FitsPrefix(s: bytes) {
    |s| < U32_RANGE
  }

  /** A string as the programs store it: four length bytes, then its bytes. */
  function Prefixed(s: bytes): (b: bytes)
    requires FitsPrefix(s)
    ensures |b| == 4 + |s|
  {
    Pow256Values();
    ToLe(|s|, U32_BYTES) + s
  }

  lemma PrefixedAt(data: bytes, offset: nat, s: bytes, rest: bytes)
    requires offset <= |data| && FitsPrefix(s)
    requires data[offset..] == Prefixed(s) + rest
    ensures offset + 4 + |s| <= |data|
    ensures U32At(data, offset) == |s|
    ensures data[offset + 4..offset + 4 + |s|] == s
    ensures data[offset + 4 + |s|..] == rest
  {
    Pow256Values();
    var tail := data[offset..];
    assert forall i | 0 <= i < 4 :: data[offset + i] == tail[i];
    LeAtEncoded(data, offset, |s|, U32_BYTES);
    assert tail[4..4 + |s|] == s && tail[4 + |s|..] == rest;
  }

  /** Where a whole string fits, what is stored is that string with its prefix. */
  lemma AtPrefixed(data: bytes, offset: nat)
    requires offset + 4 <= |data| && offset + 4 + U32At(data, offset) <= |data|
    ensures var s := data[offset + 4..offset + 4 + U32At(data, offset)];
            FitsPrefix(s) && data[offset..] == Prefixed(s) + data[offset + 4 + |s|..]
  {
    Pow256Values();
    var n := U32At(data, offset);
    EncodedLeAt(data, offset, U32_BYTES);
    assert data[offset..] == data[offset..offset + 4] + data[offset + 4..offset + 4 + n] + data[offset + 4 + n..];
  }

  /** The string at an offset and the bytes it takes up. `utf8` is the standard library's
      UTF-8 validity test. */
  function ExtractLengthPrefixedString(data: bytes, offset: nat, utf8: bytes -> bool): (r: Result<(bytes, nat)>) {
    if |data| < offset + 4 then Err(TooShort)
    else
      var len := U32At(data, offset);
      if |data| < offset + 4 + len then Err(LengthPastEnd)
      else
        var s := data[offset + 4..offset + 4 + len];
        if utf8(s) then Ok((s, 4 + len)) else Err(InvalidUtf8)
  }

  /** Extraction succeeds exactly on a stored valid string, and returns it. */
  lemma ExtractsExactlyPrefixed(data: bytes, offset: nat, utf8: bytes -> bool, s: bytes, consumed: nat)
    requires offset <= |data|
    ensures ExtractLengthPrefixedString(data, offset, utf8) == Ok((s, consumed)) <==>
            && FitsPrefix(s) && utf8(s) && consumed == 4 + |s| && offset + consumed <= |data|
            && data[offset..] == Prefixed(s) + data[offset + consumed..]
  {
    if ExtractLengthPrefixedString(data, offset, utf8) == Ok((s, consumed)) {
      AtPrefixed(data, offset);
    }
    if FitsPrefix(s) && consumed == 4 + |s| && offset + consumed <= |data|
       && data[offset..] == Prefixed(s) + data[offset + consumed..] {
      PrefixedAt(data, offset, s, data[offset + consumed..]);
    }
  }

  /** Each error says what is missing: the prefix, the bytes it announces, or text. */
  lemma ExtractErrorsIff(data: bytes, offset: nat, utf8: bytes -> bool)
    ensures ExtractLengthPrefixedString(data, offset, utf8) == Err(TooShort) <==> |data| < offset + 4
    ensures forall n: nat | n < Pow256(4) && offset + 4 <= |data| && data[offset..offset + 4] == ToLe(n, 4) ::
      && (ExtractLengthPrefixedString(data, offset, utf8) == Err(LengthPastEnd) <==> |data| < offset + 4 + n)
      && (ExtractLengthPrefixedString(data, offset, utf8) == Err(InvalidUtf8) <==>
          offset + 4 + n <= |data| && !utf8(data[offset + 4..offset + 4 + n]))
  {
    forall n: nat | n < Pow256(4) && offset + 4 <= |data| && data[offset..offset + 4] == ToLe(n, 4)
      ensures U32At(data, offset) == n
    {
      var prefix := data[offset..offset + 4];
      assert forall i | 0 <= i < 4 :: data[offset + i] == prefix[i];
      LeAtEncoded(data, offset, n, 4);
    }
  }

  lemma ExtractedAt(data: bytes, offset: nat, utf8: bytes -> bool) returns (next: nat)
    requires offset <= |data| && ExtractLengthPrefixedString(data, offset, utf8).Ok?
    ensures var (s, consumed) := ExtractLengthPrefixedString(data, offset, utf8).value;
            && FitsPrefix(s) && utf8(s) && next == offset + consumed <= |data|
            && data[offset..] == Prefixed(s) + data[next..]
  {
    AtPrefixed(data, offset);
    next := offset + ExtractLengthPrefixedString(data, offset, utf8).value.1;
  }
}

/** The Pump.fun "create" instruction. */
module PumpFunCreate {
  import opened Options
  import opened ByteCodec

  const CREATE_DISCRIMINATOR: bytes := [0xd6, 0x90, 0x4c, 0xec, 0x5f, 0x8b, 0x31, 0xb4]

  datatype CreateFields = CreateFields(name: bytes, symbol: bytes, uri: bytes)

  predicate WellFormed(f: CreateFields, utf8: bytes -> bool) {
    && FitsPrefix(f.name) && FitsPrefix(f.symbol) && FitsPrefix(f.uri)
    && utf8(f.name) && utf8(f.symbol) && utf8(f.uri)
  }

  /** The three strings in order, then anything. */
  function Layout(f: CreateFields, tail: bytes): bytes
    requires FitsPrefix(f.name) && FitsPrefix(f.symbol) && FitsPrefix(f.uri)
  {
    Prefixed(f.name) + (Prefixed(f.symbol) + (Prefixed(f.uri) + tail))
  }

  function ParseCreateFieldsSpec(data: bytes, utf8: bytes -> bool): Result<CreateFields> {
    var (name, nameSize) :- ExtractLengthPrefixedString(data, 0, utf8);
    var (symbol, symbolSize) :- ExtractLengthPrefixedString(data, nameSize, utf8);
    var (uri, _) :- ExtractLengthPrefixedString(data, nameSize + symbolSize, utf8);
    Ok(CreateFields(name, symbol, uri))
  }

  method ParseCreateFields(data: bytes, utf8: bytes -> bool) returns (r: Result<CreateFields>)
    ensures r == ParseCreateFieldsSpec(data, utf8)
  {
    var offset := 0;
    var name := ExtractLengthPrefixedString(data, offset, utf8);
    if name.Err? {
      return Err(name.error);
    }
    offset := offset + name.value.1;
    var symbol := ExtractLengthPrefixedString(data, offset, utf8);
    if symbol.Err? {
      return Err(symbol.error);
    }
    offset := offset + symbol.value.1;
    var uri := ExtractLengthPrefixedString(data, offset, utf8);
    if uri.Err? {
      return Err(uri.error);
    }
    r := Ok(CreateFields(name.value.0, symbol.value.0, uri.value.0));
  }

  /** Every well-formed triple is recovered, whatever follows it. */
  lemma ParseCreateRoundTrip(f: CreateFields, tail: bytes, utf8: bytes -> bool)
    requires WellFormed(f, utf8)
    ensures ParseCreateFieldsSpec(Layout(f, tail), utf8) == Ok(f)
  {
    hide U32At, LeAt, ToLe, Prefixed;
    var data := Layout(f, tail);
    assert data[0..] == data;
    PrefixedAt(data, 0, f.name, Prefixed(f.symbol) + (Prefixed(f.uri) + tail));
    PrefixedAt(data, 4 + |f.name|, f.symbol, Prefixed(f.uri) + tail);
    PrefixedAt(data, 4 + |f.name| + (4 + |f.symbol|), f.uri, tail);
  }

  /** Nothing else parses: a success means the data starts with exactly those three strings. */
  lemma ParseCreateOnlyLayouts(data: bytes, utf8: bytes -> bool) returns (tail: bytes)
    requires ParseCreateFieldsSpec(data, utf8).Ok?
    ensures var f := ParseCreateFieldsSpec(data, utf8).value;
            WellFormed(f, utf8) && data == Layout(f, tail)
  {
    hide ExtractLengthPrefixedString, Prefixed;
    var a := ExtractedAt(data, 0, utf8);
    var b := ExtractedAt(data, a, utf8);
    var c := ExtractedAt(data, b, utf8);
    tail := data[c..];
    assert data[0..] == data;
  }

  function ParsePumpFunCreate(data: bytes, utf8: bytes -> bool): Option<CreateFields> {
    if |data| < 8 || data[..8] != CREATE_DISCRIMINATOR then None
    else
      match ParseCreateFieldsSpec(data[8..], utf8)
      case Ok(f) => Some(f)
      case Err(_) => None
  }

  /** The instructions recognised as creations are exactly discriminator, name, symbol, URI. */
  lemma RecognisesExactlyCreates(data: bytes, utf8: bytes -> bool, f: CreateFields)
    ensures ParsePumpFunCreate(data, utf8) == Some(f) <==>
            WellFormed(f, utf8) && exists tail :: data == CREATE_DISCRIMINATOR + Layout(f, tail)
  {
    if ParsePumpFunCreate(data, utf8) == Some(f) {
      var tail := ParseCreateOnlyLayouts(data[8..], utf8);
      assert data == data[..8] + data[8..];
      assert data == CREATE_DISCRIMINATOR + Layout(f, tail);
    }
    if WellFormed(f, utf8) && exists tail :: data == CREATE_DISCRIMINATOR + Layout(f, tail) {
      var tail :| data == CREATE_DISCRIMINATOR + Layout(f, tail);
      assert data[..8] == CREATE_DISCRIMINATOR && data[8..] == Layout(f, tail);
      ParseCreateRoundTrip(f, tail, utf8);
    }
  }
}
