/**
 Listing and deleting groups in a device's storage (mls-crypto/src/lib.rs):
 which ids the listing reads back, and exactly which entries a delete removes.
 */
module GroupStorage {
  import opened Bits
  import opened GroupKeys
  import opened Text
  import opened Wrappers

  // ---------------------------------------------------------------- reading an id back

  predicate IsSpace(c: char) {
    c == ' ' || '\t' <= c <= '\r'
  }

  function TrimStart(s: string): string {
    if s != "" && IsSpace(s[0]) then TrimStart(s[1..]) else s
  }

  function TrimEnd(s: string): string {
    if s != "" && IsSpace(s[|s| - 1]) then TrimEnd(s[..|s| - 1]) else s
  }

  /** `n.trim().parse::<u8>().ok()`: a plus sign and leading zeros are accepted. */
  function ParseByte(s: string): Option<Byte> {
    var trimmed := TrimEnd(TrimStart(s));
    var digits := if trimmed != "" && trimmed[0] == '+' then trimmed[1..] else trimmed;
    if digits == "" || !AllDigits(digits) || DigitsValue(digits) >= 256 then None else Some(DigitsValue(digits))
  }

  /** Collecting into an Option: one bad piece spoils the whole. */
  function ParseAll(pieces: seq<string>): Option<GroupId> {
    if pieces == [] then Some([])
    else
      var first, rest := ParseByte(pieces[0]), ParseAll(pieces[1..]);
      if first.None? || rest.None? then None else Some([first.value] + rest.value)
  }

  /** Where "[]" first occurs. */
  function FirstBrackets(s: string, from: nat): (r: Option<nat>)
    requires from <= |s|
    ensures r.Some? ==> from <= r.value && Occurs(s, "[]", r.value)
    ensures forall i | from <= i < (if r.Some? then r.value else |s|) :: !Occurs(s, "[]", i)
    decreases |s| - from
  {
    if from + 2 > |s| then None
    else if s[from..from + 2] == "[]" then Some(from)
    else FirstBrackets(s, from + 1)
  }

  /** group_id_from_storage_key: whatever does not encode back to the same text is ignored. */
  function GroupIdFromKey(encoded: string, emptyEncoding: string): Option<GroupId> {
    match FirstBrackets(emptyEncoding, 0)
    case None => None
    case Some(at) =>
      var prefix, suffix := emptyEncoding[..at + 1], emptyEncoding[at + 1..];
      if !(prefix <= encoded) then None
      else
        var afterPrefix := encoded[|prefix|..];
        if |afterPrefix| < |suffix| || afterPrefix[|afterPrefix| - |suffix|..] != suffix then None
        else
          var inner := afterPrefix[..|afterPrefix| - |suffix|];
          var bytes := if inner == "" then Some([]) else ParseAll(Split(inner, ','));
          if bytes.Some? && Encode(bytes.value) == encoded then bytes else None
  }

  /** The parser itself is lenient; only the comparison with the encoding makes the decoder exact. */
  lemma ParserIsLenient()
    ensures ParseByte(" +07\t") == Some(7) && ParseByte("256") == None && ParseByte("") == None && ParseByte("x") == None
  {
    assert " +07\t"[1..] == "+07\t" && "+07\t"[..3] == "+07" && TrimStart("+07\t") == "+07\t" && TrimEnd("+07") == "+07";
    assert "+07"[1..] == "07" && "07"[..1] == "0" && "0"[..0] == "" && DigitsValue("0") == 0 && DigitsValue("07") == 7;
    assert "256"[..2] == "25" && "25"[..1] == "2" && "2"[..0] == "";
    assert DigitsValue("2") == 2 && DigitsValue("25") == 25 && DigitsValue("256") == 256;
  }

  lemma DecimalParses(b: Byte)
    ensures ParseByte(Decimal(b)) == Some(b) && ',' !in Decimal(b)
  {
    DecimalDigits(b);
    DecimalValue(b);
    hide Decimal;
    var s := Decimal(b);
    assert IsDigit(s[0]) && IsDigit(s[|s| - 1]);
    assert TrimEnd(TrimStart(s)) == s;
  }

  lemma ParsesPiece(piece: string, b: Byte, pieces: seq<string>, id: GroupId)
    requires ParseByte(piece) == Some(b) && ParseAll(pieces) == Some(id)
    ensures ParseAll([piece] + pieces) == Some([b] + id)
  {
    hide ParseByte;
    assert ([piece] + pieces)[1..] == pieces;
  }

  lemma {:induction false} BodyParses(id: GroupId)
    requires id != []
    ensures ParseAll(Split(Body(id), ',')) == Some(id)
  {
    DecimalParses(id[0]);
    assert ParseAll([]) == Some([]);
    assert id == [id[0]] + id[1..];
    if |id| == 1 {
      SplitPlain(Decimal(id[0]), ',');
      hide ParseByte, ParseAll, Decimal, Split;
      ParsesPiece(Decimal(id[0]), id[0], [], []);
    } else {
      SplitAt(Decimal(id[0]), ',', Body(id[1..]));
      BodyParses(id[1..]);
      hide ParseByte, ParseAll, Decimal, Split;
      ParsesPiece(Decimal(id[0]), id[0], Split(Body(id[1..]), ','), id[1..]);
    }
  }

  lemma {:induction false} FirstBracketsAt(s: string, from: nat, at: nat)
    requires from <= at && Occurs(s, "[]", at) && forall i | from <= i < at :: s[i] != '['
    ensures FirstBrackets(s, from) == Some(at)
    decreases at - from
  {
    if from < at {
      assert s[from..from + 2][0] == s[from];
      FirstBracketsAt(s, from + 1, at);
    }
  }

  /** The empty id's encoding shows what surrounds the numbers. */
  lemma EmptyEncodingSplits()
    ensures FirstBrackets(Encode([]), 0) == Some(|PREFIX| - 1)
    ensures Encode([])[..|PREFIX|] == PREFIX && Encode([])[|PREFIX|..] == SUFFIX
  {
    var text, at := Encode([]), |PREFIX| - 1;
    assert text == PREFIX + SUFFIX;
    assert text[at..at + 2] == [text[at], text[at + 1]] == "[]";
    assert forall i | 0 <= i < at :: text[i] == PREFIX[i] && PREFIX[i] != '[';
    FirstBracketsAt(text, 0, at);
  }

  lemma BodyNotEmpty(id: GroupId)
    ensures Body(id) == "" <==> id == []
  {
    if id != [] { DecimalDigits(id[0]); }
  }

  /** The listing's decoder inverts the encoding on every id and accepts no other text. */
  lemma DecodeInvertsEncode(encoded: string, id: GroupId)
    ensures GroupIdFromKey(encoded, Encode([])) == Some(id) <==> encoded == Encode(id)
  {
    EmptyEncodingSplits();
    hide FirstBrackets, ParseAll, Split, Body;
    if encoded == Encode(id) {
      var afterPrefix := encoded[|PREFIX|..];
      assert PREFIX <= encoded && afterPrefix == Body(id) + SUFFIX;
      assert afterPrefix[|Body(id)|..] == SUFFIX && afterPrefix[..|Body(id)|] == Body(id);
      BodyNotEmpty(id);
      if id != [] { BodyParses(id); }
    }
  }

  // ---------------------------------------------------------------- deleting a group

  type Storage<V> = map<string, V>

  const NON_GROUP_LABELS := ["KeyPackage", "Psk", "EncryptionKeyPair", "SignatureKeyPair"]
  const GROUP_STATE := "GroupState"

  predicate DeviceWide(key: string) {
    exists i | 0 <= i < |NON_GROUP_LABELS| :: NON_GROUP_LABELS[i] <= key
  }

  /** Whether the sweep drops a key. */
  predicate Names(key: string, id: GroupId) {
    !DeviceWide(key) && Contains(key, Encode(id))
  }

  /**
   delete_group_impl: `loads` says whether the state holds the group, `dropped`
   what OpenMLS's own delete removed before the sweep.
   */
  function Delete<V>(values: Storage<V>, id: GroupId, loads: bool, dropped: set<string>): Storage<V> {
    if !loads then values
    else
      var left := values - dropped;
      map key | key in left && (DeviceWide(key) || !Contains(key, Encode(id))) :: left[key]
  }

  /** A storage entry: device-wide key material, or an entry of one group. */
  datatype Entry = DeviceEntry(key: string) | GroupEntry(name: string, id: GroupId, tail: string)

  function Key(e: Entry): string {
    match e
    case DeviceEntry(key) => key
    case GroupEntry(name, id, tail) => name + Encode(id) + tail
  }

  predicate WellFormed(e: Entry) {
    match e
    case DeviceEntry(key) => DeviceWide(key)
    case GroupEntry(name, _, _) => PlainLabel(name) && !DeviceWide(Key(e))
  }

  /** Entries of the group, and entries of another group whose tail spells this one's id out. */
  predicate Mentions(e: Entry, id: GroupId) {
    e.GroupEntry? && (e.id == id || Contains(e.tail, Encode(id)))
  }

  lemma NamesIffMentions(e: Entry, id: GroupId)
    requires WellFormed(e)
    ensures Names(Key(e), id) <==> Mentions(e, id)
  {
    if e.GroupEntry? { KeyNamesItsGroup(e.name, e.id, e.tail, id); }
  }

  /**
   Deleting a group the device holds removes the entries that mention it and no
   others, each kept entry with its value; without the group nothing changes.
   */
  lemma DeletesExactly<V>(values: Storage<V>, id: GroupId, loads: bool, dropped: set<string>, e: Entry)
    requires WellFormed(e) && Key(e) in values
    requires forall key | key in dropped :: Names(key, id)
    ensures Key(e) in Delete(values, id, loads, dropped) <==> !(loads && Mentions(e, id))
    ensures Delete(values, id, loads, dropped).Items <= values.Items
  {
    NamesIffMentions(e, id);
    hide Key, Encode, Contains, DeviceWide, Mentions;
    var kept := Delete(values, id, loads, dropped);
    forall item | item in kept.Items ensures item in values.Items {
      assert item.0 in values && values[item.0] == item.1;
    }
  }

  /** Device-wide key material, told by its label, stays whatever bytes it holds, with its value. */
  lemma DeviceKeysStay<V>(values: Storage<V>, id: GroupId, loads: bool, dropped: set<string>, name: string, rest: string)
    requires name in ["KeyPackage", "Psk", "EncryptionKeyPair", "SignatureKeyPair"]
    requires name + rest in values && name + rest !in dropped
    ensures name + rest in Delete(values, id, loads, dropped)
    ensures Delete(values, id, loads, dropped)[name + rest] == values[name + rest]
  {
    var i :| 0 <= i < 4 && ["KeyPackage", "Psk", "EncryptionKeyPair", "SignatureKeyPair"][i] == name;
    assert NON_GROUP_LABELS[i] == name <= name + rest;
    assert DeviceWide(name + rest);
    hide Contains, Encode;
  }

  /** group_ids_impl, as a set: the ids decoded from the GroupState keys. */
  function Listed<V>(values: Storage<V>): set<GroupId> {
    set key | key in values && GROUP_STATE <= key && |key| >= |GROUP_STATE| + 2
              && GroupIdFromKey(key[|GROUP_STATE|..|key| - 2], Encode([])).Some?
      :: GroupIdFromKey(key[|GROUP_STATE|..|key| - 2], Encode([])).value
  }

  function GroupStateKey(id: GroupId, version: string): string {
    GROUP_STATE + Encode(id) + version
  }

  ghost predicate HasGroupState<V>(values: Storage<V>, id: GroupId) {
    exists version: string :: |version| == 2 && GroupStateKey(id, version) in values
  }

  /** A listed group is one with a state entry, whatever else the storage holds. */
  lemma ListsExactlyTheGroups<V>(values: Storage<V>, id: GroupId)
    ensures id in Listed(values) <==> HasGroupState(values, id)
  {
    hide GroupIdFromKey, Encode;
    if id in Listed(values) {
      var key :| key in values && GROUP_STATE <= key && |key| >= |GROUP_STATE| + 2
                 && GroupIdFromKey(key[|GROUP_STATE|..|key| - 2], Encode([])) == Some(id);
      DecodeInvertsEncode(key[|GROUP_STATE|..|key| - 2], id);
      assert key == GroupStateKey(id, key[|key| - 2..]);
    }
    if HasGroupState(values, id) {
      var version :| |version| == 2 && GroupStateKey(id, version) in values;
      var key := GroupStateKey(id, version);
      assert key[|GROUP_STATE|..|key| - 2] == Encode(id);
      DecodeInvertsEncode(Encode(id), id);
    }
  }

  /** The listed key, byte for byte but for its two version bytes. */
  lemma GroupStateKeyText(version: string)
    ensures GroupStateKey([103], version) == "GroupState{\"value\":{\"vec\":[103]}}" + version
  {
    EncodesAsJson();
    hide Encode;
  }

  lemma GroupStateEntry(id: GroupId, version: string, other: GroupId)
    requires |version| == 2
    ensures WellFormed(GroupEntry(GROUP_STATE, id, version))
    ensures Mentions(GroupEntry(GROUP_STATE, id, version), other) <==> id == other
  {
    assert Key(GroupEntry(GROUP_STATE, id, version))[0] == 'G';
    assert |Encode(other)| > 2;
  }

  /** Deleting a held group takes it off the list and leaves every other group on it. */
  lemma DeleteUnlists<V>(values: Storage<V>, id: GroupId, dropped: set<string>)
    requires forall key | key in dropped :: Names(key, id)
    ensures Listed(Delete(values, id, true, dropped)) == Listed(values) - {id}
  {
    var after := Delete(values, id, true, dropped);
    forall other: GroupId ensures other in Listed(after) <==> other in Listed(values) && other != id {
      ListsExactlyTheGroups(values, other);
      ListsExactlyTheGroups(after, other);
      StateEntriesAfterDelete(values, id, dropped, other);
    }
  }

  lemma StateEntriesAfterDelete<V>(values: Storage<V>, id: GroupId, dropped: set<string>, other: GroupId)
    requires forall key | key in dropped :: Names(key, id)
    ensures HasGroupState(Delete(values, id, true, dropped), other) <==> HasGroupState(values, other) && other != id
  {
    forall version: string | |version| == 2 && GroupStateKey(other, version) in values
      ensures GroupStateKey(other, version) in Delete(values, id, true, dropped) <==> other != id
    {
      GroupStateEntry(other, version, id);
      DeletesExactly(values, id, true, dropped, GroupEntry(GROUP_STATE, other, version));
    }
  }
}
