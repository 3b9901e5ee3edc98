/** The walk over a Metaplex metadata account that finds its is_mutable flag. */
module TokenMetadata {
  import opened MachineInts
  import opened ByteCodec

  const CREATOR_SIZE: nat := 34
  /** name, symbol and URI */
  const STRING_FIELDS: nat := 3
  /** Rust slices are at most isize::MAX bytes long. */
  const ISIZE_MAX: nat := 0x7FFF_FFFF_FFFF_FFFF

  /** An account, field by field. `creators` holds 34 bytes for each of numCreators. */
  datatype Metadata = Metadata(
    header: bytes,
    name: bytes,
    symbol: bytes,
    uri: bytes,
    sellerFee: bytes,
    creatorsTag: byte,
    numCreators: nat,
    creators: bytes,
    primarySaleHappened: byte,
    isMutable: byte)

  predicate WellFormed(m: Metadata) {
    && |m.header| == 65 && |m.sellerFee| == 2
    && FitsPrefix(m.name) && FitsPrefix(m.symbol) && FitsPrefix(m.uri)
    && m.numCreators < U32_RANGE && |m.creators| == CREATOR_SIZE * m.numCreators
    && (m.creatorsTag == 0 ==> m.numCreators == 0)
  }

  function CreatorsLayout(m: Metadata): bytes
    requires WellFormed(m)
  {
    Pow256Values();
    if m.creatorsTag == 0 then [] else ToLe(m.numCreators, U32_BYTES) + m.creators
  }

  /** The part after the seller fee: creators, the two flags, then anything. */
  function CreatorsOn(m: Metadata, tail: bytes): bytes
    requires WellFormed(m)
  {
    [m.creatorsTag] + (CreatorsLayout(m) + ([m.primarySaleHappened] + ([m.isMutable] + tail)))
  }

  /** The serialized account, followed by anything. */
  function Layout(m: Metadata, tail: bytes): bytes
    requires WellFormed(m)
  {
    m.header + Strings([m.name, m.symbol, m.uri], m.sellerFee + CreatorsOn(m, tail))
  }

  /** Length-prefixed strings in a row, then the rest. */
  function Strings(ss: seq<bytes>, rest: bytes): bytes
    requires forall s | s in ss :: FitsPrefix(s)
  {
    if ss == [] then rest else Prefixed(ss[0]) + Strings(ss[1..], rest)
  }

  function TruncatedAt(fieldsLeft: nat): DecodeError {
    if fieldsLeft == 3 then TruncatedAtName else if fieldsLeft == 2 then TruncatedAtSymbol else TruncatedAtUri
  }

  /** Steps over n length-prefixed fields: only their prefixes have to be in bounds. */
  function SkipStrings(data: bytes, offset: nat, n: nat): (r: Result<nat>)
    ensures r.Ok? ==> offset + 4 * n <= r.value
    decreases n
  {
    if n == 0 then Ok(offset)
    else if offset + 4 > |data| then Err(TruncatedAt(n))
    else SkipStrings(data, offset + 4 + U32At(data, offset), n - 1)
  }

  function SkipCreators(data: bytes, offset: nat): Result<nat> {
    if offset >= |data| then Err(TruncatedAtCreators)
    else if data[offset] == 0 then Ok(offset + 1)
    else if offset + 5 > |data| then Err(TruncatedAtCreators)
    else Ok(offset + 5 + U32At(data, offset + 1) * CREATOR_SIZE)
  }

  function FlagAfterStrings(data: bytes, afterUri: Result<nat>): (r: Result<nat>)
    ensures r.Ok? ==> r.value < |data|
  {
    var uriEnd :- afterUri;
    var afterCreators :- SkipCreators(data, uriEnd + 2);
    if afterCreators + 1 >= |data| then Err(TruncatedAtIsMutable) else Ok(afterCreators + 1)
  }

  /** The offset of the is_mutable byte. */
  function FlagOffset(data: bytes): (r: Result<nat>)
    ensures r.Ok? ==> r.value < |data|
  {
    if |data| < 66 then Err(TooShort)
    else FlagAfterStrings(data, SkipStrings(data, 65, STRING_FIELDS))
  }

  /** One step over a length prefix and its bytes, in machine words. */
  method StepOverString(data: bytes, offset: u64, truncated: DecodeError) returns (r: Result<u64>)
    requires |data| <= ISIZE_MAX && offset as int <= ISIZE_MAX + U32_RANGE
    ensures r.Ok? <==> offset as int + 4 <= |data|
    ensures r.Ok? ==> r.value as int == offset as int + 4 + U32At(data, offset as int)
    ensures r.Err? ==> r.error == truncated
  {
    var len := |data| as u64;
    if offset + 4 > len {
      return Err(truncated);
    }
    var size := U32At(data, offset as int) as u64;
    r := Ok(offset + 4 + size);
  }

  method StepOverCreators(data: bytes, start: u64) returns (r: Result<u64>)
    requires |data| <= ISIZE_MAX
    ensures match SkipCreators(data, start as int)
            case Ok(offset) => r.Ok? && r.value as int == offset && offset <= ISIZE_MAX + U32_RANGE * CREATOR_SIZE
            case Err(e) => r == Err(e)
  {
    var len := |data| as u64;
    var offset := start;
    if offset >= len {
      return Err(TruncatedAtCreators);
    }
    var hasCreators := data[offset as int] != 0;
    offset := offset + 1;
    if hasCreators {
      if offset + 4 > len {
        return Err(TruncatedAtCreators);
      }
      var numCreators := U32At(data, offset as int) as u64;
      offset := offset + 4;
      offset := offset + numCreators * 34;
    }
    r := Ok(offset);
  }

  /** The walk itself. The offset is a machine word, so the additions are checked not to wrap,
      and every index is checked to be in bounds, on arbitrary bytes. */
  method CheckMetadataImmutable(data: bytes) returns (r: Result<bool>)
    requires |data| <= ISIZE_MAX
    ensures match FlagOffset(data)
            case Ok(offset) => r == Ok(data[offset] == 0)
            case Err(e) => r == Err(e)
  {
    var len := |data| as u64;
    if len < 66 {
      return Err(TooShort);
    }
    var offset: u64 := 65;
    assert FlagOffset(data) == FlagAfterStrings(data, SkipStrings(data, offset as int, STRING_FIELDS));
    var step := StepOverString(data, offset, TruncatedAtName);
    if step.Err? {
      return Err(step.error);
    }
    assert SkipStrings(data, offset as int, STRING_FIELDS) == SkipStrings(data, step.value as int, STRING_FIELDS - 1);
    offset := step.value;
    step := StepOverString(data, offset, TruncatedAtSymbol);
    if step.Err? {
      return Err(step.error);
    }
    assert SkipStrings(data, offset as int, STRING_FIELDS - 1)
        == SkipStrings(data, step.value as int, STRING_FIELDS - 2);
    offset := step.value;
    step := StepOverString(data, offset, TruncatedAtUri);
    if step.Err? {
      return Err(step.error);
    }
    assert SkipStrings(data, offset as int, STRING_FIELDS - 2) == Ok(step.value as int);
    offset := step.value;
    offset := offset + 2;
    step := StepOverCreators(data, offset);
    if step.Err? {
      return Err(step.error);
    }
    offset := step.value;
    offset := offset + 1;
    if offset >= len {
      return Err(TruncatedAtIsMutable);
    }
    var isMutable := data[offset as int] != 0;
    r := Ok(!isMutable);
  }

  // ---------- Each error names the field that is cut off ----------

  /** Where the field after the string at this offset starts. */
  function Past(data: bytes, offset: nat): nat
    requires offset + 4 <= |data|
  {
    offset + 4 + U32At(data, offset)
  }

  lemma CutStringIff(data: bytes)
    requires |data| >= 66
    ensures FlagOffset(data) == Err(TruncatedAtName) <==> |data| < 69
    ensures |data| >= 69 ==>
      var symbol := Past(data, 65);
      && (FlagOffset(data) == Err(TruncatedAtSymbol) <==> |data| < symbol + 4)
      && (|data| >= symbol + 4 ==> (FlagOffset(data) == Err(TruncatedAtUri) <==> |data| < Past(data, symbol) + 4))
  {
    hide U32At;
    CutElsewhere(data);
  }

  lemma CutElsewhere(data: bytes)
    requires |data| >= 66
    ensures SkipStrings(data, 65, 3).Err? ==> FlagOffset(data) == SkipStrings(data, 65, 3)
    ensures SkipStrings(data, 65, 3).Ok? ==>
      FlagOffset(data) !in {Err(TruncatedAtName), Err(TruncatedAtSymbol), Err(TruncatedAtUri), Err(TooShort)}
  {
  }

  /** Too short for a header, or cut off in the list of creators or before the flag. */
  lemma CutFieldIff(data: bytes)
    ensures FlagOffset(data) == Err(TooShort) <==> |data| < 66
    ensures |data| >= 66 && SkipStrings(data, 65, 3).Ok? ==>
      var creators := SkipStrings(data, 65, 3).value + 2;
      && (FlagOffset(data) == Err(TruncatedAtCreators) <==>
          |data| < creators + 1 || (data[creators] != 0 && |data| < creators + 5))
      && (FlagOffset(data) == Err(TruncatedAtIsMutable) <==>
          && |data| >= creators + 1 && (data[creators] == 0 || |data| >= creators + 5)
          && |data| <= creators + 2 + if data[creators] == 0 then 0 else 4 + 34 * U32At(data, creators + 1))
  {
    hide U32At;
    if |data| >= 66 {
      CutElsewhere(data);
      if SkipStrings(data, 65, 3).Err? {
        SkipError(data, 65, 3);
      }
    }
  }

  lemma SkipError(data: bytes, offset: nat, n: nat)
    requires n <= 3 && SkipStrings(data, offset, n).Err?
    ensures SkipStrings(data, offset, n).error in {TruncatedAtName, TruncatedAtSymbol, TruncatedAtUri}
    decreases n
  {
  }

  // ---------- The walk accepts exactly the serialized accounts ----------

  lemma {:induction false} SkipsStrings(data: bytes, offset: nat, ss: seq<bytes>, rest: bytes)
    requires offset <= |data| && forall s | s in ss :: FitsPrefix(s)
    requires data[offset..] == Strings(ss, rest)
    ensures var r := SkipStrings(data, offset, |ss|); r.Ok? && r.value <= |data| && data[r.value..] == rest
    decreases |ss|
  {
    if ss != [] {
      PrefixedAt(data, offset, ss[0], Strings(ss[1..], rest));
      SkipsStrings(data, offset + 4 + |ss[0]|, ss[1..], rest);
    }
  }

  /** The strings that a walk within bounds stepped over. */
  lemma {:induction false} SteppedOver(data: bytes, offset: nat, n: nat) returns (ss: seq<bytes>)
    requires offset <= |data|
    requires SkipStrings(data, offset, n).Ok? && SkipStrings(data, offset, n).value <= |data|
    ensures |ss| == n && forall s | s in ss :: FitsPrefix(s)
    ensures data[offset..] == Strings(ss, data[SkipStrings(data, offset, n).value..])
    decreases n
  {
    if n == 0 {
      ss := [];
    } else {
      AtPrefixed(data, offset);
      var len := U32At(data, offset);
      var rest := SteppedOver(data, offset + 4 + len, n - 1);
      ss := [data[offset + 4..offset + 4 + len]] + rest;
      assert ss[1..] == rest;
    }
  }

  lemma DropBytes(data: bytes, offset: nat, b: bytes, rest: bytes)
    requires offset <= |data| && data[offset..] == b + rest
    ensures offset + |b| <= |data| && data[offset + |b|..] == rest
    ensures forall i | 0 <= i < |b| :: data[offset + i] == b[i]
  {
    var tail := data[offset..];
    assert data[offset + |b|..] == tail[|b|..];
    forall i | 0 <= i < |b|
      ensures data[offset + i] == b[i]
    {
      assert tail[i] == data[offset + i];
    }
  }

  lemma SkipsCreators(data: bytes, offset: nat, m: Metadata, rest: bytes)
    requires WellFormed(m) && offset <= |data|
    requires data[offset..] == [m.creatorsTag] + (CreatorsLayout(m) + rest)
    ensures SkipCreators(data, offset) == Ok(offset + 1 + |CreatorsLayout(m)|)
    ensures offset + 1 + |CreatorsLayout(m)| <= |data|
    ensures data[offset + 1 + |CreatorsLayout(m)|..] == rest
  {
    Pow256Values();
    DropBytes(data, offset, [m.creatorsTag], CreatorsLayout(m) + rest);
    assert data[offset] == [m.creatorsTag][0];
    DropBytes(data, offset + 1, CreatorsLayout(m), rest);
    if m.creatorsTag != 0 {
      var count := ToLe(m.numCreators, U32_BYTES);
      assert forall i | 0 <= i < 4 :: data[offset + 1 + i] == CreatorsLayout(m)[i] == count[i];
      LeAtEncoded(data, offset + 1, m.numCreators, U32_BYTES);
    }
  }

  lemma FlagsFound(data: bytes, offset: nat, m: Metadata, tail: bytes) returns (d: nat)
    requires WellFormed(m) && offset <= |data|
    requires data[offset..] == CreatorsOn(m, tail)
    ensures SkipCreators(data, offset) == Ok(d)
    ensures d + 1 < |data| && data[d + 1] == m.isMutable && data[d + 2..] == tail
  {
    var flags := [m.primarySaleHappened] + ([m.isMutable] + tail);
    SkipsCreators(data, offset, m, flags);
    d := SkipCreators(data, offset).value;
    DropBytes(data, d, [m.primarySaleHappened], [m.isMutable] + tail);
    DropBytes(data, d + 1, [m.isMutable], tail);
    assert data[d + 1 + 0] == [m.isMutable][0];
  }

  /** Whatever the names and however many creators, the walk lands on the is_mutable byte. */
  lemma FlagFound(m: Metadata, tail: bytes)
    requires WellFormed(m)
    ensures var data := Layout(m, tail);
            && FlagOffset(data).Ok?
            && data[FlagOffset(data).value] == m.isMutable
            && data[FlagOffset(data).value + 1..] == tail
  {
    hide U32At, LeAt, ToLe, Prefixed, Strings, CreatorsOn, SkipStrings, SkipCreators, FlagOffset;
    var data := Layout(m, tail);
    assert forall s | s in [m.name, m.symbol, m.uri] :: FitsPrefix(s);
    var afterUri := WalkToCreators(data, m.header, [m.name, m.symbol, m.uri], m.sellerFee, CreatorsOn(m, tail));
    var d := FlagsFound(data, afterUri + 2, m, tail);
    FlagAt(data, afterUri, d);
  }

  lemma FlagAt(data: bytes, afterUri: nat, d: nat)
    requires |data| >= 66 && d + 1 < |data|
    requires SkipStrings(data, 65, STRING_FIELDS) == Ok(afterUri)
    requires SkipCreators(data, afterUri + 2) == Ok(d)
    ensures FlagOffset(data) == Ok(d + 1)
  {
  }

  lemma WalkToCreators(data: bytes, header: bytes, ss: seq<bytes>, fee: bytes, rest: bytes) returns (afterUri: nat)
    requires |header| == 65 && |ss| == STRING_FIELDS && |fee| == 2
    requires forall s | s in ss :: FitsPrefix(s)
    requires data == header + Strings(ss, fee + rest)
    ensures SkipStrings(data, 65, STRING_FIELDS) == Ok(afterUri)
    ensures |data| >= 66 && afterUri + 2 <= |data| && data[afterUri + 2..] == rest
  {
    DropHeader(header, Strings(ss, fee + rest));
    SkipsStrings(data, 65, ss, fee + rest);
    afterUri := SkipStrings(data, 65, STRING_FIELDS).value;
    DropBytes(data, afterUri, fee, rest);
  }

  lemma DropHeader(header: bytes, rest: bytes)
    ensures (header + rest)[|header|..] == rest
  {
  }

  /** The creators and flags that the end of the walk went over. */
  lemma WalkedFlags(data: bytes, offset: nat) returns (tag: byte, n: nat, creators: bytes, d: nat, tail: bytes)
    requires SkipCreators(data, offset).Ok?
    requires SkipCreators(data, offset).value + 1 < |data|
    ensures n < U32_RANGE && n < Pow256(U32_BYTES) && |creators| == CREATOR_SIZE * n && (tag == 0 ==> n == 0)
    ensures SkipCreators(data, offset) == Ok(d)
    ensures var list := if tag == 0 then [] else ToLe(n, U32_BYTES) + creators;
            data[offset..] == [tag] + (list + ([data[d]] + ([data[d + 1]] + tail)))
  {
    Pow256Values();
    d := SkipCreators(data, offset).value;
    tag := data[offset];
    tail := data[d + 2..];
    assert data[d..] == [data[d]] + ([data[d + 1]] + tail);
    assert data[offset..] == [tag] + data[offset + 1..];
    if tag == 0 {
      n, creators := 0, [];
    } else {
      n, creators := U32At(data, offset + 1), data[offset + 5..d];
      EncodedLeAt(data, offset + 1, U32_BYTES);
      assert data[offset + 1..] == data[offset + 1..offset + 5] + creators + data[d..];
    }
  }

  /** The account that the walk went over. */
  lemma WalkedLayout(data: bytes) returns (m: Metadata, tail: bytes)
    requires FlagOffset(data).Ok?
    ensures WellFormed(m) && data == Layout(m, tail) && m.isMutable == data[FlagOffset(data).value]
  {
    hide U32At, LeAt, ToLe, Prefixed;
    var c := SkipStrings(data, 65, STRING_FIELDS).value;
    var tag, n, creators, d, rest := WalkedFlags(data, c + 2);
    FlagAt(data, c, d);
    var ss := SteppedOver(data, 65, STRING_FIELDS);
    tail := rest;
    m := MakeAccount(data[..65], ss, data[c..c + 2], tag, n, creators, data[d], data[d + 1], tail);
    Reassemble(data, c, ss, m, tail);
  }

  lemma MakeAccount(header: bytes, ss: seq<bytes>, fee: bytes, tag: byte, n: nat, creators: bytes, sale: byte,
                    mutable: byte, tail: bytes)
    returns (m: Metadata)
    requires |header| == 65 && |fee| == 2 && |ss| == STRING_FIELDS && forall s | s in ss :: FitsPrefix(s)
    requires n < U32_RANGE && n < Pow256(U32_BYTES) && |creators| == CREATOR_SIZE * n && (tag == 0 ==> n == 0)
    ensures WellFormed(m) && ss == [m.name, m.symbol, m.uri]
    ensures m.header == header && m.sellerFee == fee && m.isMutable == mutable
    ensures var list := if tag == 0 then [] else ToLe(n, U32_BYTES) + creators;
            CreatorsOn(m, tail) == [tag] + (list + ([sale] + ([mutable] + tail)))
  {
    m := Metadata(header, ss[0], ss[1], ss[2], fee, tag, n, creators, sale, mutable);
  }

  lemma Reassemble(data: bytes, c: nat, ss: seq<bytes>, m: Metadata, tail: bytes)
    requires WellFormed(m) && 65 <= |data| && c + 2 <= |data|
    requires ss == [m.name, m.symbol, m.uri]
    requires m.header == data[..65] && m.sellerFee == data[c..c + 2]
    requires data[65..] == Strings(ss, data[c..])
    requires data[c + 2..] == CreatorsOn(m, tail)
    ensures data == Layout(m, tail)
  {
    SplitAt(data, 65);
    SplitTail(data, c, c + 2);
  }

  lemma SplitAt(data: bytes, i: nat)
    requires i <= |data|
    ensures data == data[..i] + data[i..]
  {
  }

  lemma SplitTail(data: bytes, i: nat, j: nat)
    requires i <= j <= |data|
    ensures data[i..] == data[i..j] + data[j..]
  {
  }

  /** An answer is given exactly for serialized accounts, and it is the negated flag. */
  lemma AnswersExactlyLayouts(data: bytes, isMutable: byte)
    ensures FlagOffset(data).Ok? && data[FlagOffset(data).value] == isMutable <==>
            exists m, tail :: WellFormed(m) && data == Layout(m, tail) && m.isMutable == isMutable
  {
    if FlagOffset(data).Ok? {
      var m, tail := WalkedLayout(data);
    }
    forall m, tail | WellFormed(m) && data == Layout(m, tail)
      ensures FlagOffset(data).Ok? && data[FlagOffset(data).value] == m.isMutable
    {
      FlagFound(m, tail);
    }
  }
}
