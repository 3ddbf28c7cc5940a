/**
 * A Key (unsw/dungeon/entity/Key.java): a Usable item with an id that links it to a door,
 * a use counter, and the itemUsed notifications it emits.
 */
module Keys {
  import opened Events
  import opened Meta

  /** The observable outcome of one use: its answer, the remaining uses, what was emitted. */
  datatype UseOutcome = UseOutcome(ok: bool, uses: int, emitted: seq<ItemUsed>)

  /**
   * Key.use on a key whose getUses() reports `reported` and whose counter holds `uses`,
   * against a target whose interact(key) answers `answer`: refuse when nothing is reported
   * left, refuse when the target refuses, otherwise decrement once and emit one notification.
   */
  function UseEffect(reported: int, uses: int, answer: bool): UseOutcome
  {
    if reported <= 0 then UseOutcome(false, uses, [])
    else if !answer then UseOutcome(false, uses, [])
    else UseOutcome(true, uses - 1, [ItemUsed(uses, uses - 1)])
  }

  /** getUses() as the source writes it: the constant 0, whatever the counter holds. */
  function GetUsesAsWritten(uses: int): (r: int)
    ensures r <= 0
  {
    0
  }

  /**
   * With getUses() as written, use never succeeds, never decrements and never emits,
   * whatever the counter and the target: every key is inert.
   */
  lemma UseAsWrittenNeverSucceeds(uses: int, answer: bool)
    ensures UseEffect(GetUsesAsWritten(uses), uses, answer) == UseOutcome(false, uses, [])
  {
  }

  /**
   * The discrepancy on a concrete input: a key with one use presented to a target that
   * accepts it is used up when getUses reports the counter, but refused as written.
   */
  lemma UseAsWrittenRefusesUsableKey()
    ensures UseEffect(1, 1, true) == UseOutcome(true, 0, [ItemUsed(1, 0)])
    ensures !UseEffect(GetUsesAsWritten(1), 1, true).ok
  {
  }

  /**
   * With getUses() reporting the counter, a use succeeds exactly when a use is left and the
   * target accepts; only then is the counter decremented, by exactly one, with exactly one
   * notification carrying (old, old - 1); on failure nothing changes and nothing is emitted.
   */
  lemma UseDecrementsOnlyOnSuccess(uses: int, answer: bool)
    ensures UseEffect(uses, uses, answer).ok <==> uses > 0 && answer
    ensures UseEffect(uses, uses, answer).ok ==>
      UseEffect(uses, uses, answer).uses == uses - 1 && UseEffect(uses, uses, answer).emitted == [ItemUsed(uses, uses - 1)]
    ensures !UseEffect(uses, uses, answer).ok ==>
      UseEffect(uses, uses, answer).uses == uses && UseEffect(uses, uses, answer).emitted == []
  {
  }

  class Key {
    var id: int
    /** The counter (inherited from ItemEntity, which is not part of this model). */
    var uses: int
    /** Every ItemUsed sent through itemUsed(), oldest first. */
    var itemUsed: seq<ItemUsed>

    /**
     * A key starts with id -1. Its initial use count is set by ItemEntity, which is not part
     * of this model, so it is a parameter here.
     */
    constructor (initialUses: int)
      ensures id == -1 && uses == initialUses && itemUsed == []
    {
      id := -1;
      uses := initialUses;
      itemUsed := [];
    }

    method SetID(newId: int)
      modifies this`id
      ensures id == newId
      ensures uses == old(uses) && itemUsed == old(itemUsed)
    {
      id := newId;
    }

    function GetID(): (r: int)
      reads this`id
      ensures r == id
    {
      id
    }

    /** getUses() reporting the counter; the source returns 0 here (see GetUsesAsWritten). */
    function GetUses(): (r: int)
      reads this`uses
      ensures r == uses
    {
      uses
    }

    /** At most one key is meaningful in an inventory. */
    function MaxOne(): (r: bool)
      ensures r
    {
      true
    }

    /** Whether use(target) would succeed in the current state. */
    predicate WouldSucceed(target: Interactable)
      reads this`uses
    {
      UseEffect(GetUses(), uses, AnswerToItem(target)).ok
    }

    /**
     * use(target): checks the uses left, then asks the target to interact with this key,
     * and only if it agrees decrements the counter and emits one ItemUsed(old, old - 1).
     */
    method Use(target: Interactable) returns (ok: bool)
      modifies this`uses, this`itemUsed
      ensures |itemUsed| >= |old(itemUsed)| && itemUsed[..|old(itemUsed)|] == old(itemUsed)
      ensures UseOutcome(ok, uses, itemUsed[|old(itemUsed)|..]) == UseEffect(old(uses), old(uses), AnswerToItem(target))
      ensures ok == old(WouldSucceed(target))
      ensures !ok ==> uses == old(uses) && itemUsed == old(itemUsed)
      ensures id == old(id)
    {
      if GetUses() <= 0 {
        return false;
      }
      var accepted := AnswerToItem(target);
      if !accepted {
        return false;
      }
      itemUsed := itemUsed + [ItemUsed(uses, uses - 1)];
      uses := uses - 1;
      ok := true;
    }
  }
}
