/** The voice table of internal/data/character_voice.go: creating a voice,
    looking one up by its uuid, listing them, and the mapping to biz values. */
module VoiceData {
  import opened Wrappers
  import opened BizErr

  /** A row of the character_voices table; `uuid` is its primary key. */
  datatype VoiceRow = VoiceRow(uuid: string, nameZH: string, nameEN: string, gender: int,
                               zhUrl: string, enUrl: string, zhRoleID: string, enRoleID: string)

  /** biz.CharacterVoice. */
  datatype CharacterVoice = CharacterVoice(uuid: string, nameZH: string, nameEN: string, gender: int,
                                           zhUrl: string, enUrl: string, zhRoleID: string, enRoleID: string)

  /** makeBizCharacterVoice: the English sample URL serves for both languages;
      every other field, the role ids included, is copied. */
  function MakeBizCharacterVoice(row: VoiceRow): (v: CharacterVoice)
    ensures v.zhUrl == row.enUrl && v.enUrl == row.enUrl
    ensures v.uuid == row.uuid && v.nameZH == row.nameZH && v.nameEN == row.nameEN && v.gender == row.gender
    ensures v.zhRoleID == row.zhRoleID && v.enRoleID == row.enRoleID
  {
    CharacterVoice(row.uuid, row.nameZH, row.nameEN, row.gender, row.enUrl, row.enUrl, row.zhRoleID, row.enRoleID)
  }

  /** The list mapping: one biz voice per row, same length, same order. */
  function VoiceList(rows: seq<VoiceRow>): (vs: seq<CharacterVoice>)
    ensures |vs| == |rows| && forall i :: 0 <= i < |rows| ==> vs[i] == MakeBizCharacterVoice(rows[i])
  {
    seq(|rows|, i requires 0 <= i < |rows| => MakeBizCharacterVoice(rows[i]))
  }

  /** makeBizCharacterVoiceList: fills a result of the same length index by index. */
  method MakeBizCharacterVoiceList(rows: seq<VoiceRow>) returns (vs: seq<CharacterVoice>)
    ensures vs == VoiceList(rows)
  {
    var res := [];
    for i := 0 to |rows|
      invariant |res| == i && forall j :: 0 <= j < i ==> res[j] == MakeBizCharacterVoice(rows[j])
    {
      res := res + [MakeBizCharacterVoice(rows[i])];
    }
    vs := res;
  }

  /** No two rows share a uuid. */
  predicate UniqueIDs(rows: seq<VoiceRow>) {
    forall i, j :: 0 <= i < j < |rows| ==> rows[i].uuid != rows[j].uuid
  }

  /** The first row with uuid `id`. */
  function Lookup(rows: seq<VoiceRow>, id: string): (r: Option<VoiceRow>)
    ensures r.None? <==> forall i :: 0 <= i < |rows| ==> rows[i].uuid != id
    ensures r.Some? ==> r.value.uuid == id && r.value in rows
  {
    if |rows| == 0 then None
    else if rows[0].uuid == id then Some(rows[0])
    else Lookup(rows[1..], id)
  }

  /** With unique uuids, the lookup finds the one row that has the id. */
  lemma {:induction false} LookupFindsRow(rows: seq<VoiceRow>, i: nat)
    requires UniqueIDs(rows) && i < |rows|
    ensures Lookup(rows, rows[i].uuid) == Some(rows[i])
  {
    if i > 0 {
      assert rows[0].uuid != rows[i].uuid;
      assert UniqueIDs(rows[1..]) by {
        forall a, b | 0 <= a < b < |rows[1..]| ensures rows[1..][a].uuid != rows[1..][b].uuid {
          assert rows[1..][a] == rows[a + 1] && rows[1..][b] == rows[b + 1];
        }
      }
      LookupFindsRow(rows[1..], i - 1);
      assert rows[1..][i - 1] == rows[i];
    }
  }

  /** The voice table, in storage order. */
  class VoiceStore {
    var rows: seq<VoiceRow>

    ghost predicate Valid()
      reads this
    {
      UniqueIDs(rows)
    }

    constructor ()
      ensures Valid() && rows == []
    {
      rows := [];
    }

    /** CreateCharacterVoice: inserts a row under the fresh uuid `id`, with the
        English URL stored as the Chinese one too and no role ids. `fault` is
        the insert's error. */
    method CreateCharacterVoice(req: CharacterVoice, id: string, fault: Option<Error>) returns (err: Option<Error>)
      requires Valid() && forall i :: 0 <= i < |rows| ==> rows[i].uuid != id
      modifies this
      ensures Valid() && err == fault
      ensures fault.Some? ==> rows == old(rows)
      ensures fault.None? ==>
        rows == old(rows) + [VoiceRow(id, req.nameZH, req.nameEN, req.gender, req.enUrl, req.enUrl, "", "")]
    {
      if fault.Some? {
        return fault;
      }
      rows := rows + [VoiceRow(id, req.nameZH, req.nameEN, req.gender, req.enUrl, req.enUrl, "", "")];
      return None;
    }

    /** QueryAllCharacterVoice: every row, mapped, in storage order; the
        gender argument plays no part. */
    function QueryAllCharacterVoice(gender: int, fault: Option<Error>): (r: Result<seq<CharacterVoice>, Error>)
      reads this
      ensures fault.Some? ==> r == Err(fault.value)
      ensures fault.None? ==> r.Ok? && |r.value| == |rows|
      ensures fault.None? ==> forall i :: 0 <= i < |rows| ==> r.value[i] == MakeBizCharacterVoice(rows[i])
    {
      if fault.Some? then Err(fault.value) else Ok(VoiceList(rows))
    }

    /** QueryCharacterVoiceByID: the mapped row with uuid `id`, or nothing
        (and no error) when there is none. */
    function QueryCharacterVoiceByID(id: string, fault: Option<Error>): (r: Result<Option<CharacterVoice>, Error>)
      reads this
      ensures fault.Some? ==> r == Err(fault.value)
      ensures fault.None? ==> r.Ok? && (r.value.None? <==> forall i :: 0 <= i < |rows| ==> rows[i].uuid != id)
      ensures fault.None? && r.value.Some? ==> r.value.value.uuid == id
    {
      if fault.Some? then Err(fault.value)
      else match Lookup(rows, id)
        case None => Ok(None)
        case Some(row) => Ok(Some(MakeBizCharacterVoice(row)))
    }
  }

  /** After a create, the new voice is found under its uuid, with the English
      URL in both URL fields and no role ids. */
  lemma CreatedVoiceFound(store: VoiceStore, before: seq<VoiceRow>, req: CharacterVoice, id: string)
    requires UniqueIDs(before) && forall i :: 0 <= i < |before| ==> before[i].uuid != id
    requires store.rows == before + [VoiceRow(id, req.nameZH, req.nameEN, req.gender, req.enUrl, req.enUrl, "", "")]
    ensures store.QueryCharacterVoiceByID(id, None)
         == Ok(Some(CharacterVoice(id, req.nameZH, req.nameEN, req.gender, req.enUrl, req.enUrl, "", "")))
  {
    assert UniqueIDs(store.rows);
    LookupFindsRow(store.rows, |before|);
  }

  /** A lookup by the uuid of a stored row returns that row, mapped. */
  lemma StoredVoiceFound(store: VoiceStore, i: nat)
    requires store.Valid() && i < |store.rows|
    ensures store.QueryCharacterVoiceByID(store.rows[i].uuid, None) == Ok(Some(MakeBizCharacterVoice(store.rows[i])))
  {
    LookupFindsRow(store.rows, i);
  }
}
