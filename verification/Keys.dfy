/** The byte keys of a machine doc: three namespaces and the contract keys' own format. */
module Keys {
  import opened Types
  import opened Docs

  const CLAIMABLE_CONTRACT_PREFIX: Bytes := [0x01, 0xFF]
  const MACHINE_CONFIG_KEY: Bytes := [0x02, 0xFF]
  const KV_PREFIX: Bytes := [0x03, 0xFF]

  datatype ParseError = InvalidLength | InvalidPrefix
  datatype Parsed = Valid(pay: PayId) | Invalid(error: ParseError)

  function ContractKeyBytes(pay: PayId): Bytes {
    CLAIMABLE_CONTRACT_PREFIX + pay.federation + pay.contract
  }

  /** `parse_incoming_contract_machine_doc_key`. */
  function ParseContractKey(key: Bytes): Parsed {
    if |key| != 66 then Invalid(InvalidLength)
    else if !(CLAIMABLE_CONTRACT_PREFIX <= key) then Invalid(InvalidPrefix)
    else Valid(PayId(key[2..34], key[34..66]))
  }

  /** Every created key parses back to what it was made of. */
  lemma ParseAfterCreate(pay: PayId)
    ensures ParseContractKey(ContractKeyBytes(pay)) == Valid(pay)
  {
    var key := ContractKeyBytes(pay);
    assert key[2..34] == pay.federation;
    assert key[34..66] == pay.contract;
  }

  /** `create_claimable_contract_machine_doc_key`: 66 bytes that parse back to exactly this federation and
      this contract's id; nothing else of the contract is in them. */
  method CreateContractKey(federation: Hash, contract: Contract) returns (key: Bytes)
    ensures |key| == 66 && ParseContractKey(key) == Valid(PayId(federation, contract.id))
  {
    key := CLAIMABLE_CONTRACT_PREFIX;
    key := key + federation;
    key := key + contract.id;
    ParseAfterCreate(PayId(federation, contract.id));
  }

  /** Whatever parses is the created key of its result; and everything of the right length and prefix
      parses, so the two are a bijection between pairs of hashes and such keys. */
  lemma CreateAfterParse(key: Bytes)
    ensures ParseContractKey(key).Valid? <==> |key| == 66 && key[..2] == CLAIMABLE_CONTRACT_PREFIX
    ensures ParseContractKey(key).Valid? ==> ContractKeyBytes(ParseContractKey(key).pay) == key
  {
    if |key| == 66 && key[..2] == CLAIMABLE_CONTRACT_PREFIX {
      assert CLAIMABLE_CONTRACT_PREFIX <= key;
    }
    if ParseContractKey(key).Valid? {
      assert key == key[..2] + key[2..34] + key[34..66];
    }
  }

  // ---------------------------------------------------------------------------------------------
  // All keys of a doc
  // ---------------------------------------------------------------------------------------------

  function Encode(key: DocKey): Bytes {
    match key
    case ContractKey(pay) => ContractKeyBytes(pay)
    case ConfigKey => MACHINE_CONFIG_KEY
    case KvKey(user) => KV_PREFIX + user
  }

  /** What a reader makes of a byte key. */
  function Decode(bytes: Bytes): Option<DocKey> {
    if KV_PREFIX <= bytes then Some(KvKey(bytes[2..]))
    else if bytes == MACHINE_CONFIG_KEY then Some(ConfigKey)
    else
      match ParseContractKey(bytes)
      case Valid(pay) => Some(ContractKey(pay))
      case Invalid(_) => None
  }

  lemma DecodeAfterEncode(key: DocKey)
    ensures Decode(Encode(key)) == Some(key)
  {
    match key
    case ContractKey(pay) =>
      assert Encode(key)[0] == 0x01;
      ParseAfterCreate(pay);
    case ConfigKey =>
      assert Encode(key)[0] == 0x02;
    case KvKey(user) =>
      assert (KV_PREFIX + user)[2..] == user;
  }

  lemma EncodeAfterDecode(bytes: Bytes)
    ensures Decode(bytes).Some? ==> Encode(Decode(bytes).value) == bytes
  {
    if KV_PREFIX <= bytes {
      assert KV_PREFIX + bytes[2..] == bytes;
    } else if bytes != MACHINE_CONFIG_KEY {
      CreateAfterParse(bytes);
    }
  }

  /** No two keys share their bytes, and no contract key or config key is the beginning of another key,
      so an exact query never meets a longer key. */
  lemma ContractKeysArePrefixFree(pay: PayId, key: DocKey)
    ensures Encode(ContractKey(pay)) <= Encode(key) ==> key == ContractKey(pay)
    ensures Encode(ConfigKey) <= Encode(key) ==> key == ConfigKey
    ensures Encode(key) <= Encode(ContractKey(pay)) ==> key == ContractKey(pay)
  {
    FirstByte(key);
    FirstByte(ContractKey(pay));
    if key.ContractKey? && (Encode(ContractKey(pay)) <= Encode(key) || Encode(key) <= Encode(ContractKey(pay))) {
      assert Encode(ContractKey(pay)) == Encode(key);
      ParseAfterCreate(pay);
      ParseAfterCreate(key.pay);
    }
  }

  lemma FirstByte(key: DocKey)
    ensures |Encode(key)| >= 2 && Encode(key)[1] == 0xFF
    ensures Encode(key)[0] == if key.ContractKey? then 0x01 else if key.ConfigKey? then 0x02 else 0x03
  {
  }

  /** The two prefix scans select exactly their namespaces. */
  lemma ScansSelectNamespaces(key: DocKey)
    ensures CLAIMABLE_CONTRACT_PREFIX <= Encode(key) <==> key.ContractKey?
    ensures KV_PREFIX <= Encode(key) <==> key.KvKey?
  {
    FirstByte(key);
  }

  // ---------------------------------------------------------------------------------------------
  // Isolation
  // ---------------------------------------------------------------------------------------------

  /** A doc as the engine stores it, by author and byte key. */
  datatype RawSlot = RawSlot(author: Device, key: Bytes)
  type RawReplica = map<RawSlot, Entry>

  /** A write or a delete, of any author, at any key. */
  datatype RawWrite = RawWrite(slot: RawSlot, e: Entry)

  function WriteAll(r: RawReplica, writes: seq<RawWrite>): RawReplica
    decreases |writes|
  {
    if writes == [] then r else WriteAll(r[writes[0].slot := writes[0].e], writes[1..])
  }

  /** The entries whose stored keys a reader understands. */
  function Readable(r: RawReplica): Replica {
    var slots := set raw | raw in r && Decode(raw.key).Some? :: Slot(raw.author, Decode(raw.key).value);
    map slot | slot in slots && RawSlot(slot.author, Encode(slot.key)) in r :: r[RawSlot(slot.author, Encode(slot.key))]
  }

  predicate WithinNamespace(writes: seq<RawWrite>, prefix: Bytes) {
    forall i :: 0 <= i < |writes| ==> prefix <= writes[i].slot.key
  }

  lemma {:induction false} OtherSlotsUntouched(r: RawReplica, writes: seq<RawWrite>, prefix: Bytes, raw: RawSlot)
    requires WithinNamespace(writes, prefix) && !(prefix <= raw.key)
    ensures raw in WriteAll(r, writes) <==> raw in r
    ensures raw in r ==> WriteAll(r, writes)[raw] == r[raw]
    decreases |writes|
  {
    if writes != [] {
      assert writes[0].slot != raw;
      var rest := writes[1..];
      forall i | 0 <= i < |rest| ensures prefix <= rest[i].slot.key {
        assert rest[i] == writes[i + 1];
      }
      OtherSlotsUntouched(r[writes[0].slot := writes[0].e], rest, prefix, raw);
    }
  }

  /** What the engine stores for a replica. */
  function Stored(r: Replica): RawReplica {
    map raw | raw in (set s | s in r :: RawSlot(s.author, Encode(s.key)))
              && Decode(raw.key).Some? && Slot(raw.author, Decode(raw.key).value) in r
      :: r[Slot(raw.author, Decode(raw.key).value)]
  }

  lemma StoredSlot(r: Replica, slot: Slot)
    ensures
      var raw := RawSlot(slot.author, Encode(slot.key));
      (raw in Stored(r) <==> slot in r) && (slot in r ==> Stored(r)[raw] == r[slot])
  {
    DecodeAfterEncode(slot.key);
  }

  /** Nothing else is stored. */
  lemma StoredIsEncoded(r: Replica, raw: RawSlot)
    requires raw in Stored(r)
    ensures Decode(raw.key).Some? && Slot(raw.author, Decode(raw.key).value) in r
    ensures raw.key == Encode(Decode(raw.key).value)
  {
    EncodeAfterDecode(raw.key);
  }

  /** Storing a replica and reading it gives the replica back. */
  lemma ReadableAfterStored(r: Replica)
    ensures Readable(Stored(r)) == r
  {
    hide Readable, Stored, Encode, Decode;
    forall slot
      ensures slot in Readable(Stored(r)) <==> slot in r
      ensures slot in r ==> Readable(Stored(r))[slot] == r[slot]
    {
      StoredSlot(r, slot);
      ReadableSlot(Stored(r), slot);
    }
  }

  lemma ReadableSlot(r: RawReplica, slot: Slot)
    ensures slot in Readable(r) <==> RawSlot(slot.author, Encode(slot.key)) in r
    ensures slot in Readable(r) ==> Readable(r)[slot] == r[RawSlot(slot.author, Encode(slot.key))]
  {
    DecodeAfterEncode(slot.key);
    var raw := RawSlot(slot.author, Encode(slot.key));
    if raw in r {
      assert Slot(raw.author, Decode(raw.key).value) == slot;
    }
  }

  /** However many writes and deletes happen under one prefix, a query for a key outside it answers as
      before: payments, config and key/value entries never disturb each other. */
  lemma NamespacesAreIsolated(r: RawReplica, writes: seq<RawWrite>, prefix: Bytes, key: DocKey)
    requires WithinNamespace(writes, prefix) && !(prefix <= Encode(key))
    ensures Visible(Readable(WriteAll(r, writes)), key) == Visible(Readable(r), key)
  {
    forall slot: Slot | slot.key == key
      ensures slot in Readable(WriteAll(r, writes)) <==> slot in Readable(r)
      ensures slot in Readable(r) ==> Readable(WriteAll(r, writes))[slot] == Readable(r)[slot]
    {
      OtherSlotsUntouched(r, writes, prefix, RawSlot(slot.author, Encode(key)));
      ReadableSlot(r, slot);
      ReadableSlot(WriteAll(r, writes), slot);
    }
    VisibleIsLocal(Readable(WriteAll(r, writes)), Readable(r), key);
  }
}
