/** The like flags of internal/data/character_account_likes.go: one record
    per (character, account) pair, holding whether that account likes that
    character. */
module LikesData {
  import opened Wrappers
  import opened BizErr

  /** gorm.ErrRecordNotFound. */
  const ErrRecordNotFound := Text("record not found")

  /** The accounts whose flag for `characterID` is set. */
  function Likers(flags: map<(string, string), bool>, characterID: string): set<string> {
    set k | k in flags && k.0 == characterID && flags[k] :: k.1
  }

  /** The character_account_likes table, keyed by (character id, account id). */
  class LikeStore {
    var flags: map<(string, string), bool>

    constructor ()
      ensures flags == map[]
    {
      flags := map[];
    }

    /** SaveCharacterAccountLike: fetch the pair's record (a fresh one when
        there is none), set its flag and save it. `lookupFault` is a lookup
        error other than "record not found", which is returned; `saveFault`,
        an error of the save, is swallowed. */
    method SaveCharacterAccountLike(characterID: string, accountID: string, flag: bool,
                                    lookupFault: Option<Error>, saveFault: Option<Error>)
      returns (err: Option<Error>)
      modifies this
      ensures lookupFault.Some? ==> err == lookupFault && flags == old(flags)
      ensures lookupFault.None? ==> err.None?
      ensures lookupFault.None? && saveFault.Some? ==> flags == old(flags)
      ensures lookupFault.None? && saveFault.None? ==> flags == old(flags)[(characterID, accountID) := flag]
    {
      if lookupFault.Some? {
        return lookupFault;
      }
      if saveFault.Some? {
        return None;
      }
      flags := flags[(characterID, accountID) := flag];
      return None;
    }

    /** QueryCharacterAccountLike: the pair's flag; a pair with no record is
        the not-found error, not `false`. */
    function QueryCharacterAccountLike(characterID: string, accountID: string, fault: Option<Error>): (r: Result<bool, Error>)
      reads this
      ensures fault.Some? ==> r == Err(fault.value)
      ensures fault.None? && (characterID, accountID) !in flags ==> r == Err(ErrRecordNotFound)
      ensures fault.None? && (characterID, accountID) in flags ==> r == Ok(flags[(characterID, accountID)])
    {
      if fault.Some? then Err(fault.value)
      else if (characterID, accountID) in flags then Ok(flags[(characterID, accountID)])
      else Err(ErrRecordNotFound)
    }

    /** QueryCharacterLikeCount: how many records of the character have the flag set. */
    function QueryCharacterLikeCount(characterID: string, fault: Option<Error>): (r: Result<nat, Error>)
      reads this
      ensures fault.Some? ==> r == Err(fault.value)
      ensures fault.None? ==> r == Ok(|Likers(flags, characterID)|)
    {
      if fault.Some? then Err(fault.value) else Ok(|Likers(flags, characterID)|)
    }
  }

  /** Saving a flag and querying the same pair gives the flag back. */
  lemma SaveThenQuery(store: LikeStore, before: map<(string, string), bool>, c: string, a: string, flag: bool)
    requires store.flags == before[(c, a) := flag]
    ensures store.QueryCharacterAccountLike(c, a, None) == Ok(flag)
  {
  }

  /** Saving one pair leaves every other pair as it was. */
  lemma SaveKeepsOtherPairs(store: LikeStore, before: map<(string, string), bool>, c: string, a: string, flag: bool,
                            c': string, a': string)
    requires store.flags == before[(c, a) := flag] && (c', a') != (c, a)
    ensures (c', a') in store.flags <==> (c', a') in before
    ensures (c', a') in before ==> store.flags[(c', a')] == before[(c', a')]
  {
  }

  /** Setting a flag adds the account to the character's likers, clearing it
      removes the account. */
  lemma LikersAfterSave(before: map<(string, string), bool>, c: string, a: string, flag: bool)
    ensures Likers(before[(c, a) := flag], c) == if flag then Likers(before, c) + {a} else Likers(before, c) - {a}
  {
    var after := before[(c, a) := flag];
    if flag {
      assert (c, a) in after && after[(c, a)];
      forall x | x in Likers(before, c) ensures x in Likers(after, c) {
        var k :| k in before && k.0 == c && before[k] && k.1 == x;
        if k != (c, a) { assert k in after && after[k]; }
      }
    } else {
      forall x | x in Likers(before, c) && x != a ensures x in Likers(after, c) {
        var k :| k in before && k.0 == c && before[k] && k.1 == x;
        assert k in after && after[k];
      }
    }
  }

  /** Saving a pair of one character leaves every other character's likers as they were. */
  lemma LikersOfOthersUnchanged(before: map<(string, string), bool>, c: string, a: string, flag: bool, other: string)
    requires other != c
    ensures Likers(before[(c, a) := flag], other) == Likers(before, other)
  {
    var after := before[(c, a) := flag];
    forall x | x in Likers(before, other) ensures x in Likers(after, other) {
      var k :| k in before && k.0 == other && before[k] && k.1 == x;
      assert k in after && after[k];
    }
  }

  /** Liking raises the count by one for an account that did not like the
      character yet, and leaves it unchanged for one that did. */
  lemma LikeCountAfterLike(store: LikeStore, before: map<(string, string), bool>, c: string, a: string)
    requires store.flags == before[(c, a) := true]
    ensures store.QueryCharacterLikeCount(c, None)
         == Ok(|Likers(before, c)| + if a in Likers(before, c) then 0 else 1)
  {
    LikersAfterSave(before, c, a, true);
  }
}
