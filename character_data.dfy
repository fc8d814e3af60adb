/** The character table of internal/data/character.go: the upsert that
    creates a record or merges a request into it (GORM's struct `Updates`,
    which skips zero values), the lookup by id and the listings. */
module CharacterData {
  import opened Wrappers
  import opened Strs
  import opened BizErr

  /** The State of a draft that has not been confirmed. */
  const Unconfirmed := -1

  datatype Tag = Tag(key: string, value: string)

  /** biz.CharacterRequest. */
  datatype CharacterRequest = CharacterRequest(
    id: string, accountID: string, accountName: string, avatarURL: string, name: string,
    gender: int, prompt: string, imageURL: string, likeCount: int, chatCount: int,
    state: int, tags: map<string, string>, voice: string, introduction: string, is3D: bool)

  /** A row of the characters table; `createdAt` and `updatedAt` come from gorm.Model. */
  datatype Character = Character(
    id: string, name: string, gender: int, prompt: string, introduction: string,
    accountID: string, accountName: string, avatarURL: string, imageURL: string,
    imageURLs: seq<string>, likeCount: int, chatCount: int, isMint: bool, mint: string,
    tag: seq<Tag>, state: int, voiceID: string, isCustomized: bool, is3D: bool,
    createdAt: int, updatedAt: int)

  /** biz.CharacterResponse. */
  datatype CharacterResponse = CharacterResponse(
    id: string, accountID: string, accountName: string, avatarURL: string, name: string,
    gender: int, prompt: string, imageURL: string, imageURLs: seq<string>, isMint: bool,
    updateTime: int, likeCount: int, chatCount: int, tag: seq<Tag>, mint: string,
    voice: string, is3D: bool, introduction: string)

  /** `tag` lists every entry of `m` once, as a {Key, Value} pair, in some order. */
  predicate IsTagList(tag: seq<Tag>, m: map<string, string>) {
    (forall i :: 0 <= i < |tag| ==> tag[i].key in m && tag[i].value == m[tag[i].key])
    && (forall i, j :: 0 <= i < j < |tag| ==> tag[i].key != tag[j].key)
    && (forall k :: k in m ==> exists i :: 0 <= i < |tag| && tag[i].key == k)
  }

  /** The record the create path inserts: every request field but LikeCount;
      no image list, not minted, not customised. */
  function NewCharacter(req: CharacterRequest, tag: seq<Tag>, now: int): (c: Character)
    ensures c.id == req.id && c.state == req.state && c.tag == tag
    ensures c.likeCount == 0 && c.imageURLs == [] && !c.isMint && c.mint == ""
  {
    Character(req.id, req.name, req.gender, req.prompt, req.introduction, req.accountID,
              req.accountName, req.avatarURL, req.imageURL, [], 0, req.chatCount, false, "",
              tag, req.state, req.voice, false, req.is3D, now, now)
  }

  function PickStr(x: string, stored: string): string { if x == "" then stored else x }
  function PickInt(x: int, stored: int): int { if x == 0 then stored else x }
  function PickBool(x: bool, stored: bool): bool { x || stored }

  /** The update path: `Updates` with a struct writes the non-zero fields the
      update struct sets (the request's, not LikeCount, Tag, ImageURLs, IsMint
      or Mint) and stamps UpdatedAt. */
  function Merge(c: Character, req: CharacterRequest, now: int): (u: Character)
    ensures u.id == c.id && u.createdAt == c.createdAt && u.updatedAt == now
    ensures u.likeCount == c.likeCount && u.tag == c.tag && u.imageURLs == c.imageURLs
    ensures u.isMint == c.isMint && u.mint == c.mint && u.isCustomized == c.isCustomized
    ensures req.state == 0 ==> u.state == c.state
    ensures !req.is3D ==> u.is3D == c.is3D
  {
    c.(name := PickStr(req.name, c.name), gender := PickInt(req.gender, c.gender),
       prompt := PickStr(req.prompt, c.prompt), introduction := PickStr(req.introduction, c.introduction),
       accountID := PickStr(req.accountID, c.accountID), accountName := PickStr(req.accountName, c.accountName),
       avatarURL := PickStr(req.avatarURL, c.avatarURL), imageURL := PickStr(req.imageURL, c.imageURL),
       chatCount := PickInt(req.chatCount, c.chatCount), state := PickInt(req.state, c.state),
       voiceID := PickStr(req.voice, c.voiceID), is3D := PickBool(req.is3D, c.is3D), updatedAt := now)
  }

  /** makeBizCharacterResponse: the record's fields under the response's
      names (VoiceID as Voice, UpdatedAt as UpdateTime), the tags copied in order. */
  function MakeBizCharacterResponse(c: Character): (r: CharacterResponse)
    ensures r.id == c.id && r.voice == c.voiceID && r.updateTime == c.updatedAt && r.tag == c.tag
    ensures r.imageURLs == c.imageURLs && r.is3D == c.is3D && r.likeCount == c.likeCount
  {
    CharacterResponse(c.id, c.accountID, c.accountName, c.avatarURL, c.name, c.gender, c.prompt,
                      c.imageURL, c.imageURLs, c.isMint, c.updatedAt, c.likeCount, c.chatCount,
                      c.tag, c.mint, c.voiceID, c.is3D, c.introduction)
  }

  /** The response drops exactly State, IsCustomized and CreatedAt: two
      records give the same response exactly when they agree on every other field. */
  lemma ResponseForgetsOnlyBookkeeping(c: Character, d: Character)
    ensures MakeBizCharacterResponse(c) == MakeBizCharacterResponse(d)
        <==> c.(state := d.state, isCustomized := d.isCustomized, createdAt := d.createdAt) == d
  {
  }

  function Responses(cs: seq<Character>): (rs: seq<CharacterResponse>)
    ensures |rs| == |cs| && forall i :: 0 <= i < |cs| ==> rs[i] == MakeBizCharacterResponse(cs[i])
  {
    seq(|cs|, i requires 0 <= i < |cs| => MakeBizCharacterResponse(cs[i]))
  }

  /** makeBizCharacterResponses: one response per record, in order. */
  method MakeBizCharacterResponses(cs: seq<Character>) returns (rs: seq<CharacterResponse>)
    ensures rs == Responses(cs)
  {
    var res := [];
    for i := 0 to |cs|
      invariant |res| == i && forall j :: 0 <= j < i ==> res[j] == MakeBizCharacterResponse(cs[j])
    {
      res := res + [MakeBizCharacterResponse(cs[i])];
    }
    rs := res;
  }

  /** `after` is `before` with `req` saved at time `now`: merged into the
      stored record, or inserted as a new one with its tags listed. */
  ghost predicate Saved(before: map<string, Character>, after: map<string, Character>, req: CharacterRequest, now: int) {
    req.id in after
    && (req.id in before ==> after == before[req.id := Merge(before[req.id], req, now)])
    && (req.id !in before ==> IsTagList(after[req.id].tag, req.tags)
                              && after == before[req.id := NewCharacter(req, after[req.id].tag, now)])
  }

  /** The characters table, keyed by id. */
  class CharacterStore {
    var records: map<string, Character>

    constructor ()
      ensures records == map[]
    {
      records := map[];
    }

    /** SaveCharacter: look the id up; absent, insert the new record with the
        tag map turned into a list; present, merge the request into it. Either
        way the request id comes back. `lookupFault` is an error of the lookup
        other than "record not found", `writeFault` one of the insert or update. */
    method SaveCharacter(req: CharacterRequest, lookupFault: Option<Error>, writeFault: Option<Error>, now: int)
      returns (r: Result<string, Error>)
      modifies this
      ensures lookupFault.Some? ==> r == Err(lookupFault.value) && records == old(records)
      ensures lookupFault.None? && writeFault.Some? ==> r == Err(writeFault.value) && records == old(records)
      ensures lookupFault.None? && writeFault.None? ==> r == Ok(req.id)
      ensures lookupFault.None? && writeFault.None? ==> Saved(old(records), records, req, now)
    {
      if lookupFault.Some? {
        return Err(lookupFault.value);
      }
      if req.id !in records {
        var tag: seq<Tag> := [];
        var remaining := req.tags.Keys;
        while remaining != {}
          invariant remaining <= req.tags.Keys
          invariant forall i :: 0 <= i < |tag| ==>
            tag[i].key in req.tags && tag[i].key !in remaining && tag[i].value == req.tags[tag[i].key]
          invariant forall i, j :: 0 <= i < j < |tag| ==> tag[i].key != tag[j].key
          invariant forall k :: k in req.tags && k !in remaining ==> exists i :: 0 <= i < |tag| && tag[i].key == k
          decreases remaining
        {
          var k :| k in remaining;
          ghost var prev := tag;
          tag := tag + [Tag(k, req.tags[k])];
          remaining := remaining - {k};
          forall k' | k' in req.tags && k' !in remaining
            ensures exists i :: 0 <= i < |tag| && tag[i].key == k'
          {
            if k' == k {
              assert tag[|prev|].key == k';
            } else {
              var i :| 0 <= i < |prev| && prev[i].key == k';
              assert tag[i].key == k';
            }
          }
        }
        if writeFault.Some? {
          return Err(writeFault.value);
        }
        records := records[req.id := NewCharacter(req, tag, now)];
        return Ok(req.id);
      }
      if writeFault.Some? {
        return Err(writeFault.value);
      }
      records := records[req.id := Merge(records[req.id], req, now)];
      return Ok(req.id);
    }

    /** QueryCharacterByID: the record's response, or nothing (and no error)
        when the id is unknown. */
    function QueryCharacterByID(id: string, fault: Option<Error>): (r: Result<Option<CharacterResponse>, Error>)
      reads this
      ensures fault.Some? ==> r == Err(fault.value)
      ensures fault.None? ==> r.Ok? && (r.value.None? <==> id !in records)
      ensures fault.None? && id in records ==> r.value == Some(MakeBizCharacterResponse(records[id]))
    {
      if fault.Some? then Err(fault.value)
      else if id in records then Ok(Some(MakeBizCharacterResponse(records[id])))
      else Ok(None)
    }
  }

  // ---- Listings ----
  // `rows` is the table as the listing's ORDER BY returns it.

  predicate Listed(c: Character) { c.state != Unconfirmed }

  /** SQL `like '%q%'` on prompt, account name or name, under the columns'
      collation: `fold` is the collation's comparison key (for MySQL's default
      collations, case- and accent-insensitive), and the query matches when
      its key is a substring of the field's key. */
  predicate MatchesQuery(fold: string -> string, c: Character, query: string) {
    Contains(fold(c.prompt), fold(query)) || Contains(fold(c.accountName), fold(query))
    || Contains(fold(c.name), fold(query))
  }

  predicate OwnerMatch(fold: string -> string, c: Character, accountID: string, query: string) {
    c.accountID == accountID && MatchesQuery(fold, c, query)
  }

  predicate PublicMatch(fold: string -> string, c: Character, query: string) {
    Listed(c) && MatchesQuery(fold, c, query)
  }

  /** The match sees the fields only through the collation: renaming a
      character to a name with the same key (another case, say) changes no
      match, and a query with the same key as the name matches. */
  lemma MatchUnderCollation(fold: string -> string, c: Character, name: string, query: string)
    requires fold(name) == fold(c.name)
    ensures MatchesQuery(fold, c.(name := name), query) == MatchesQuery(fold, c, query)
    ensures fold(query) == fold(name) ==> MatchesQuery(fold, c, query)
  {
    if fold(query) == fold(name) {
      assert Occurs(fold(query), fold(c.name), 0);
    }
  }

  /** The rows that are not drafts, in order. */
  function FilterListed(rows: seq<Character>): (r: seq<Character>)
    ensures |r| <= |rows|
    ensures forall i :: 0 <= i < |r| ==> Listed(r[i]) && r[i] in rows
    ensures forall c :: c in rows && Listed(c) ==> c in r
    ensures (exists i :: 0 <= i < |rows| && !Listed(rows[i])) ==> |r| < |rows|
  {
    if |rows| == 0 then []
    else
      var rest := FilterListed(rows[1..]);
      assert forall i :: 1 <= i < |rows| ==> rows[i] == rows[1..][i - 1];
      if Listed(rows[0]) then [rows[0]] + rest else rest
  }

  /** The account's rows matching the query. */
  function FilterOwner(fold: string -> string, rows: seq<Character>, accountID: string, query: string)
    : (r: seq<Character>)
    ensures |r| <= |rows|
    ensures forall i :: 0 <= i < |r| ==> OwnerMatch(fold, r[i], accountID, query) && r[i] in rows
    ensures forall c :: c in rows && OwnerMatch(fold, c, accountID, query) ==> c in r
  {
    if |rows| == 0 then []
    else
      var rest := FilterOwner(fold, rows[1..], accountID, query);
      if OwnerMatch(fold, rows[0], accountID, query) then [rows[0]] + rest else rest
  }

  /** The non-draft rows matching the query. */
  function FilterPublic(fold: string -> string, rows: seq<Character>, query: string): (r: seq<Character>)
    ensures |r| <= |rows|
    ensures forall i :: 0 <= i < |r| ==> PublicMatch(fold, r[i], query) && r[i] in rows
    ensures forall c :: c in rows && PublicMatch(fold, c, query) ==> c in r
  {
    if |rows| == 0 then []
    else
      var rest := FilterPublic(fold, rows[1..], query);
      if PublicMatch(fold, rows[0], query) then [rows[0]] + rest else rest
  }

  /** The filters keep order and multiplicity: filtering a concatenation
      filters each part, and a single row is kept exactly when it qualifies. */
  lemma {:induction false} FilterListedAppend(a: seq<Character>, b: seq<Character>)
    ensures FilterListed(a + b) == FilterListed(a) + FilterListed(b)
    decreases |a|
  {
    if |a| == 0 {
      assert a + b == b;
    } else {
      assert (a + b)[1..] == a[1..] + b;
      FilterListedAppend(a[1..], b);
    }
  }

  lemma FilterListedSingle(c: Character)
    ensures FilterListed([c]) == (if Listed(c) then [c] else [])
  {
    assert [c][1..] == [];
  }

  lemma {:induction false} FilterOwnerAppend(fold: string -> string, a: seq<Character>, b: seq<Character>,
                                             accountID: string, query: string)
    ensures FilterOwner(fold, a + b, accountID, query)
         == FilterOwner(fold, a, accountID, query) + FilterOwner(fold, b, accountID, query)
    decreases |a|
  {
    if |a| == 0 {
      assert a + b == b;
    } else {
      assert (a + b)[1..] == a[1..] + b;
      FilterOwnerAppend(fold, a[1..], b, accountID, query);
    }
  }

  lemma FilterOwnerSingle(fold: string -> string, c: Character, accountID: string, query: string)
    ensures FilterOwner(fold, [c], accountID, query) == (if OwnerMatch(fold, c, accountID, query) then [c] else [])
  {
    assert [c][1..] == [];
  }

  lemma {:induction false} FilterPublicAppend(fold: string -> string, a: seq<Character>, b: seq<Character>,
                                              query: string)
    ensures FilterPublic(fold, a + b, query) == FilterPublic(fold, a, query) + FilterPublic(fold, b, query)
    decreases |a|
  {
    if |a| == 0 {
      assert a + b == b;
    } else {
      assert (a + b)[1..] == a[1..] + b;
      FilterPublicAppend(fold, a[1..], b, query);
    }
  }

  lemma FilterPublicSingle(fold: string -> string, c: Character, query: string)
    ensures FilterPublic(fold, [c], query) == (if PublicMatch(fold, c, query) then [c] else [])
  {
    assert [c][1..] == [];
  }

  /** The offset GORM applies: (page-1)*limit, none when not positive. */
  function Offset(page: int, limit: int): (o: nat)
    ensures (page - 1) * limit > 0 ==> o == (page - 1) * limit
    ensures (page - 1) * limit <= 0 ==> o == 0
  {
    if (page - 1) * limit > 0 then (page - 1) * limit else 0
  }

  /** `.Offset((page-1)*limit).Limit(limit)`: the rows from the offset on, at
      most `limit` of them; a negative limit sets no bound. */
  function Window<T>(xs: seq<T>, page: int, limit: int): (r: seq<T>)
    ensures var s := Offset(page, limit);
      (s >= |xs| ==> r == [])
      && (s < |xs| ==> s + |r| <= |xs| && r == xs[s..s + |r|])
    ensures limit >= 0 ==> |r| <= limit
    ensures limit < 0 && Offset(page, limit) < |xs| ==> r == xs[Offset(page, limit)..]
    ensures limit >= 0 && Offset(page, limit) + limit <= |xs| ==> |r| == limit
  {
    var s := Offset(page, limit);
    if s >= |xs| then []
    else if limit < 0 || s + limit > |xs| then xs[s..]
    else xs[s..s + limit]
  }

  /** QueryCharactersByAccountID: with no account, the non-draft rows and a
      count of the whole table; with an account, that account's rows matching
      the query (drafts included) and their count. */
  function QueryCharactersByAccountID(fold: string -> string, rows: seq<Character>, accountID: string, query: string,
                                      page: int, limit: int, listFault: Option<Error>, countFault: Option<Error>)
    : (r: Result<(seq<CharacterResponse>, int), Error>)
    ensures listFault.Some? ==> r == Err(listFault.value)
    ensures listFault.None? && countFault.Some? ==> r == Err(countFault.value)
    ensures r.Ok? && accountID == "" ==>
      r.value == (Responses(Window(FilterListed(rows), page, limit)), |rows|)
    ensures r.Ok? && accountID != "" ==>
      r.value == (Responses(Window(FilterOwner(fold, rows, accountID, query), page, limit)), |FilterOwner(fold, rows, accountID, query)|)
  {
    if listFault.Some? then Err(listFault.value)
    else if countFault.Some? then Err(countFault.value)
    else if accountID == "" then Ok((Responses(Window(FilterListed(rows), page, limit)), |rows|))
    else
      var matched := FilterOwner(fold, rows, accountID, query);
      Ok((Responses(Window(matched, page, limit)), |matched|))
  }

  /** QueryCharactersByNameOrPrompt: the non-draft rows, all of them or those
      matching the query; the count excludes drafts in both cases. */
  function QueryCharactersByNameOrPrompt(fold: string -> string, rows: seq<Character>, query: string, page: int, limit: int,
                                         listFault: Option<Error>, countFault: Option<Error>)
    : (r: Result<(seq<CharacterResponse>, int), Error>)
    ensures listFault.Some? ==> r == Err(listFault.value)
    ensures listFault.None? && countFault.Some? ==> r == Err(countFault.value)
    ensures r.Ok? && query == "" ==>
      r.value == (Responses(Window(FilterListed(rows), page, limit)), |FilterListed(rows)|)
    ensures r.Ok? && query != "" ==>
      r.value == (Responses(Window(FilterPublic(fold, rows, query), page, limit)), |FilterPublic(fold, rows, query)|)
  {
    if listFault.Some? then Err(listFault.value)
    else if countFault.Some? then Err(countFault.value)
    else
      var matched := if query == "" then FilterListed(rows) else FilterPublic(fold, rows, query);
      Ok((Responses(Window(matched, page, limit)), |matched|))
  }

  /** Every listed response of a public listing comes from a row that is not a draft. */
  lemma PublicListingHasNoDrafts(fold: string -> string, rows: seq<Character>, query: string, page: int, limit: int)
    ensures QueryCharactersByNameOrPrompt(fold, rows, query, page, limit, None, None).Ok?
    ensures var listed := QueryCharactersByNameOrPrompt(fold, rows, query, page, limit, None, None).value.0;
      forall i :: 0 <= i < |listed| ==> exists c :: c in rows && Listed(c) && listed[i] == MakeBizCharacterResponse(c)
  {
    var matched := if query == "" then FilterListed(rows) else FilterPublic(fold, rows, query);
    var w := Window(matched, page, limit);
    var listed := Responses(w);
    forall i | 0 <= i < |listed|
      ensures exists c :: c in rows && Listed(c) && listed[i] == MakeBizCharacterResponse(c)
    {
      var s := Offset(page, limit);
      assert w[i] == matched[s + i];
      assert w[i] in rows && Listed(w[i]) && listed[i] == MakeBizCharacterResponse(w[i]);
    }
    assert QueryCharactersByNameOrPrompt(fold, rows, query, page, limit, None, None).value.0 == listed;
    assert forall i :: 0 <= i < |listed| ==> exists c :: c in rows && Listed(c) && listed[i] == MakeBizCharacterResponse(c);
  }

  /** With no account the count covers the whole table, so one draft makes it
      larger than the number of rows that can ever be listed. */
  lemma DraftsCountedWithoutAccount(fold: string -> string, rows: seq<Character>, page: int, limit: int)
    requires exists i :: 0 <= i < |rows| && rows[i].state == Unconfirmed
    ensures var r := QueryCharactersByAccountID(fold, rows, "", "", page, limit, None, None);
      r.Ok? && r.value.1 > |FilterListed(rows)|
  {
  }

  /** When the update path is handed a zero value (State 0, Is3D false, ""),
      the stored value survives: a draft stays a draft. */
  lemma ZeroStateKeepsDraft(c: Character, req: CharacterRequest, now: int)
    requires c.state == Unconfirmed && req.state == 0
    ensures Merge(c, req, now).state == Unconfirmed
  {
  }

  /** Merging the same request twice at the same time is merging it once. */
  lemma MergeIdempotent(c: Character, req: CharacterRequest, now: int)
    ensures Merge(Merge(c, req, now), req, now) == Merge(c, req, now)
  {
  }
}
