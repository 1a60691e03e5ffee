/**
 * The roll session state as the controller sees it. The roll history's outcome
 * list, its eligibility rules and the dice themselves belong to bot/roll.py,
 * which is not part of this model: here a history is its three
 * "action still available" flags, and each Roller transition is given the
 * flags it leaves behind.
 */
module Roll {

  /** The three legality flags: `can_reroll()`, `can_free_reroll()`, `can_go_all_in()`. */
  datatype Flags = Flags(reroll: bool, freeReroll: bool, allIn: bool)

  /** A roll history recovered from a message; the Roller updates it in place. */
  class RollHistory {
    var canReroll: bool
    var canFreeReroll: bool
    var canGoAllIn: bool

    constructor (f: Flags)
      ensures State() == f
    {
      canReroll, canFreeReroll, canGoAllIn := f.reroll, f.freeReroll, f.allIn;
    }

    function State(): Flags
      reads this
    {
      Flags(canReroll, canFreeReroll, canGoAllIn)
    }

    method SetFlags(f: Flags)
      modifies this
      ensures State() == f
    {
      canReroll, canFreeReroll, canGoAllIn := f.reroll, f.freeReroll, f.allIn;
    }
  }

  /**
   * `Roller(roll_history=h)`: the only mutator of a history. What a transition
   * does to the flags is decided by the roll rules, so each takes the
   * resulting flags `after` as a parameter.
   */
  class Roller {
    const history: RollHistory

    constructor (history: RollHistory)
      ensures this.history == history
    {
      this.history := history;
    }

    method Reroll(after: Flags)
      modifies history
      ensures history.State() == after
    {
      history.SetFlags(after);
    }

    method FreeReroll(after: Flags)
      modifies history
      ensures history.State() == after
    {
      history.SetFlags(after);
    }

    method AllIn(after: Flags)
      modifies history
      ensures history.State() == after
    {
      history.SetFlags(after);
    }
  }
}
