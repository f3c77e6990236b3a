/**
 * Saving and loading a Remapper (Remapper.save and the constructor
 * `Remapper(Context, String)`). The stored record is a JSON object whose
 * members "keyMap" and "motionMap" are objects mapping `String.valueOf(key)`
 * to the integer value. Saving writes the entries in the tables' ArrayMap
 * order; loading reads members in the record's order, raising
 * JSONException for a missing table or a non-integer value and
 * NumberFormatException for a name that is not an integer.
 */
module RemapStore {
  import opened AndroidInput
  import opened Wrappers
  import opened ArrayMaps
  import opened JsonStore
  import opened Remap

  /** The members the save loop writes for the entries with keys `ks`, in that order. */
  function EncodeEntries(m: map<int32, int32>, ks: seq<int32>): seq<Member>
    requires forall i :: 0 <= i < |ks| ==> ks[i] in m
    decreases |ks|
  {
    if ks == [] then []
    else
      var last := ks[|ks| - 1];
      EncodeEntries(m, ks[..|ks| - 1]) + [Member(IntToString(last as int), JInt(m[last]))]
  }

  /** The JSON object `save` builds for one table. */
  ghost function EncodeTable(m: map<int32, int32>): seq<Member>
  {
    AscendingKeysWithin(m);
    EncodeEntries(m, AscendingKeys(m.Keys))
  }

  /** The record `save` stores: "keyMap" first, then "motionMap". */
  ghost function EncodeRecord(keyMap: map<int32, int32>, motionMap: map<int32, int32>): Json
  {
    JObject([Member("keyMap", JObject(EncodeTable(keyMap))), Member("motionMap", JObject(EncodeTable(motionMap)))])
  }

  /**
   * The load loop over one table's members: `getInt(key)` (JSONException
   * unless the value is an integer), then `Integer.valueOf(key)`
   * (NumberFormatException unless the name is an integer), then `put`.
   * The first failing member decides the outcome.
   */
  function DecodeTable(members: seq<Member>): (r: Result<map<int32, int32>, LoadError>)
    ensures r.Ok? <==> forall i :: 0 <= i < |members| ==> members[i].value.JInt? && ParseInt(members[i].name).Some?
    ensures r.Ok? ==> forall i :: 0 <= i < |members| ==> ParseInt(members[i].name).value in r.value
    decreases |members|
  {
    if members == [] then Ok(map[])
    else
      var pre := members[..|members| - 1];
      var last := members[|members| - 1];
      assert forall i :: 0 <= i < |pre| ==> pre[i] == members[i];
      match DecodeTable(pre)
      case Err(e) => Err(e)
      case Ok(table) =>
        if !last.value.JInt? then Err(JSONException)
        else match ParseInt(last.name)
          case None => Err(NumberFormatException)
          case Some(key) => Ok(table[key := last.value.n])
  }

  /**
   * The loading constructor up to the reverse maps: an absent record (the
   * preference defaults to "", which does not parse) or one without both
   * tables raises JSONException before any member is read.
   */
  function DecodeRecord(stored: Option<Json>): (r: Result<(map<int32, int32>, map<int32, int32>), LoadError>)
    ensures stored.None? || !stored.value.JObject? ==> r == Err(JSONException)
    ensures r.Ok? ==>
      && stored.Some? && stored.value.JObject?
      && GetObject(stored.value.members, "keyMap").Ok? && GetObject(stored.value.members, "motionMap").Ok?
      && DecodeTable(GetObject(stored.value.members, "keyMap").value) == Ok(r.value.0)
      && DecodeTable(GetObject(stored.value.members, "motionMap").value) == Ok(r.value.1)
  {
    match stored
    case Some(JObject(fields)) =>
      (match GetObject(fields, "keyMap")
       case Err(e) => Err(e)
       case Ok(keyMembers) =>
         match GetObject(fields, "motionMap")
         case Err(e) => Err(e)
         case Ok(motionMembers) =>
           match DecodeTable(keyMembers)
           case Err(e) => Err(e)
           case Ok(keyMap) =>
             match DecodeTable(motionMembers)
             case Err(e) => Err(e)
             case Ok(motionMap) => Ok((keyMap, motionMap)))
    case _ => Err(JSONException)
  }

  /** What `new Remapper(context, name)` yields for the stored record: a Remapper or the exception raised. */
  ghost function LoadSpec(stored: Option<Json>): Result<Remapper, LoadError>
  {
    match DecodeRecord(stored)
    case Ok((keyMap, motionMap)) => Ok(RemapperOf(keyMap, motionMap))
    case Err(e) => Err(e)
  }

  lemma EncodeEntriesStep(m: map<int32, int32>, ks: seq<int32>, i: nat)
    requires i < |ks|
    requires forall j :: 0 <= j < |ks| ==> ks[j] in m
    ensures EncodeEntries(m, ks[..i + 1]) == EncodeEntries(m, ks[..i]) + [Member(IntToString(ks[i] as int), JInt(m[ks[i]]))]
  {
    assert ks[..i + 1][..i] == ks[..i];
  }

  /** The save loop over one table. */
  method SaveTable(m: map<int32, int32>) returns (members: seq<Member>)
    ensures members == EncodeTable(m)
  {
    var ks := AscendingKeysOf(m.Keys);
    AscendingKeysWithin(m);
    members := [];
    var i := 0;
    while i < |ks|
      invariant 0 <= i <= |ks|
      invariant members == EncodeEntries(m, ks[..i])
    {
      EncodeEntriesStep(m, ks, i);
      members := members + [Member(IntToString(ks[i] as int), JInt(m[ks[i]]))];
      i := i + 1;
    }
    assert ks[..|ks|] == ks;
  }

  /** Remapper.save: the record written to the shared preferences. */
  method Save(r: Remapper) returns (record: Json)
    ensures record == EncodeRecord(r.keyMap, r.motionMap)
  {
    var keyMembers := SaveTable(r.keyMap);
    var motionMembers := SaveTable(r.motionMap);
    record := JObject([Member("keyMap", JObject(keyMembers)), Member("motionMap", JObject(motionMembers))]);
  }

  /** Once a member fails to load, the rest of the table is never read. */
  lemma {:induction false} DecodeErrorPersists(members: seq<Member>, n: nat)
    requires n <= |members| && DecodeTable(members[..n]).Err?
    ensures DecodeTable(members) == DecodeTable(members[..n])
    decreases |members|
  {
    if n < |members| {
      var pre := members[..|members| - 1];
      assert pre[..n] == members[..n];
      DecodeErrorPersists(pre, n);
    } else {
      assert members[..n] == members;
    }
  }

  /** The load loop over one table's members. */
  method LoadTable(members: seq<Member>) returns (result: Result<map<int32, int32>, LoadError>)
    ensures result == DecodeTable(members)
  {
    var table := map[];
    var i := 0;
    while i < |members|
      invariant 0 <= i <= |members|
      invariant DecodeTable(members[..i]) == Ok(table)
    {
      var member := members[i];
      assert members[..i + 1][..i] == members[..i];
      if !member.value.JInt? {
        DecodeErrorPersists(members, i + 1);
        return Err(JSONException);
      }
      var key := ParseInt(member.name);
      if key.None? {
        DecodeErrorPersists(members, i + 1);
        return Err(NumberFormatException);
      }
      table := table[key.value := member.value.n];
      i := i + 1;
    }
    assert members[..|members|] == members;
    result := Ok(table);
  }

  /** Constructor `Remapper(context, name)`: parse the stored record, then build the reverse maps. */
  method Load(stored: Option<Json>) returns (result: Result<Remapper, LoadError>)
    ensures result == LoadSpec(stored)
    ensures result.Ok? ==> result.value.Valid()
  {
    if !stored.Some? || !stored.value.JObject? {
      return Err(JSONException);
    }
    var fields := stored.value.members;
    var keyMembers := GetObject(fields, "keyMap");
    if keyMembers.Err? {
      return Err(keyMembers.error);
    }
    var motionMembers := GetObject(fields, "motionMap");
    if motionMembers.Err? {
      return Err(motionMembers.error);
    }
    var keyMap := LoadTable(keyMembers.value);
    if keyMap.Err? {
      return Err(keyMap.error);
    }
    var motionMap := LoadTable(motionMembers.value);
    if motionMap.Err? {
      return Err(motionMap.error);
    }
    var r := NewRemapper(keyMap.value, motionMap.value);
    result := Ok(r);
  }

  /** The entries of the keys `ks` are those of its prefix plus its last key. */
  lemma EntriesStep(m: map<int32, int32>, ks: seq<int32>)
    requires ks != []
    requires forall i :: 0 <= i < |ks| ==> ks[i] in m
    ensures (map k | k in ks[..|ks| - 1] :: m[k])[ks[|ks| - 1] := m[ks[|ks| - 1]]] == map k | k in ks :: m[k]
  {
    assert ks == ks[..|ks| - 1] + [ks[|ks| - 1]];
  }

  /** Decoding the members written for the keys `ks` puts back exactly those entries. */
  lemma {:induction false} DecodeEncodedEntries(m: map<int32, int32>, ks: seq<int32>)
    requires forall i :: 0 <= i < |ks| ==> ks[i] in m
    ensures DecodeTable(EncodeEntries(m, ks)) == Ok(map k | k in ks :: m[k])
    decreases |ks|
  {
    if ks != [] {
      var pre := ks[..|ks| - 1];
      var last := ks[|ks| - 1];
      DecodeEncodedEntries(m, pre);
      var lastMember := Member(IntToString(last as int), JInt(m[last]));
      var members := EncodeEntries(m, ks);
      assert members == EncodeEntries(m, pre) + [lastMember];
      assert members[..|members| - 1] == EncodeEntries(m, pre);
      ParseIntToString(last);
      assert DecodeTable(members) == Ok((map k | k in pre :: m[k])[last := m[last]]);
      EntriesStep(m, ks);
    }
  }

  /** Loading a table that `save` wrote gives back the table. */
  lemma TableRoundTrip(m: map<int32, int32>)
    ensures DecodeTable(EncodeTable(m)) == Ok(m)
  {
    AscendingKeysEnumerates(m.Keys);
    var ks := AscendingKeys(m.Keys);
    DecodeEncodedEntries(m, ks);
    assert (map k | k in ks :: m[k]) == m;
  }

  /** The member written at position `i` carries the name of the `i`-th key. */
  lemma {:induction false} EncodeEntriesNames(m: map<int32, int32>, ks: seq<int32>)
    requires forall i :: 0 <= i < |ks| ==> ks[i] in m
    ensures |EncodeEntries(m, ks)| == |ks|
    ensures forall i :: 0 <= i < |ks| ==> EncodeEntries(m, ks)[i].name == IntToString(ks[i] as int)
    decreases |ks|
  {
    if ks != [] {
      var pre := ks[..|ks| - 1];
      EncodeEntriesNames(m, pre);
      assert forall i :: 0 <= i < |pre| ==> pre[i] == ks[i];
    }
  }

  /** A saved table never writes two members under one name. */
  lemma EncodeTableNamesUnique(m: map<int32, int32>)
    ensures UniqueNames(EncodeTable(m))
  {
    AscendingKeysEnumerates(m.Keys);
    var ks := AscendingKeys(m.Keys);
    EncodeEntriesNames(m, ks);
    var members := EncodeTable(m);
    forall i, j | 0 <= i < j < |members|
      ensures members[i].name != members[j].name
    {
      if members[i].name == members[j].name {
        IntToStringInjective(ks[i], ks[j]);
      }
    }
  }

  /** A record laid out as `save` lays it out decodes to whatever its two tables decode to. */
  lemma DecodeSavedLayout(keyMembers: seq<Member>, motionMembers: seq<Member>)
    ensures DecodeRecord(Some(JObject([Member("keyMap", JObject(keyMembers)), Member("motionMap", JObject(motionMembers))])))
      == match DecodeTable(keyMembers)
         case Err(e) => Err(e)
         case Ok(keyMap) =>
           match DecodeTable(motionMembers)
           case Err(e) => Err(e)
           case Ok(motionMap) => Ok((keyMap, motionMap))
  {
    var fields := [Member("keyMap", JObject(keyMembers)), Member("motionMap", JObject(motionMembers))];
    assert Lookup(fields, "keyMap") == Some(JObject(keyMembers));
    assert fields[1..] == [Member("motionMap", JObject(motionMembers))];
    assert "motionMap" != "keyMap";
    assert Lookup(fields, "motionMap") == Some(JObject(motionMembers));
  }

  /** Parsing the record `save` wrote gives back both tables. */
  lemma RecordRoundTrip(keyMap: map<int32, int32>, motionMap: map<int32, int32>)
    ensures DecodeRecord(Some(EncodeRecord(keyMap, motionMap))) == Ok((keyMap, motionMap))
  {
    TableRoundTrip(keyMap);
    TableRoundTrip(motionMap);
    DecodeSavedLayout(EncodeTable(keyMap), EncodeTable(motionMap));
  }

  /** Loading the record `save` wrote reproduces the Remapper that was saved. */
  lemma SaveLoadRoundTrip(r: Remapper)
    requires r.Valid()
    ensures LoadSpec(Some(EncodeRecord(r.keyMap, r.motionMap))) == Ok(r)
  {
    RecordRoundTrip(r.keyMap, r.motionMap);
  }

  /** A stored record lacking either table fails to load with JSONException. */
  lemma MissingTableFails(fields: seq<Member>)
    requires Lookup(fields, "keyMap") == None || Lookup(fields, "motionMap") == None
    ensures LoadSpec(Some(JObject(fields))) == Err(JSONException)
  {
  }

  /** A record whose first failing member has a non-integer name raises NumberFormatException, which callers catching JSONException do not catch. */
  lemma BadKeyNameFails(value: int32)
    ensures LoadSpec(Some(JObject([Member("keyMap", JObject([Member("up", JInt(value))])),
                                   Member("motionMap", JObject([]))]))) == Err(NumberFormatException)
  {
    var inner := [Member("up", JInt(value))];
    assert inner[..0] == [];
    assert "up"[0] == 'u';
    assert ParseInt("up") == None;
    assert DecodeTable(inner) == Err(NumberFormatException);
    var fields := [Member("keyMap", JObject(inner)), Member("motionMap", JObject([]))];
    assert Lookup(fields, "keyMap") == Some(JObject(inner));
    assert fields[1..] == [Member("motionMap", JObject([]))];
    assert "motionMap" != "keyMap";
    assert Lookup(fields, "motionMap") == Some(JObject([]));
    assert DecodeRecord(Some(JObject(fields))) == Err(NumberFormatException);
  }
}
