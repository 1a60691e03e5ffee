/**
 * The roll controller: which follow-up buttons a roll message carries, and
 * what happens when one of them is pressed. A press is decoded from the
 * button's identifier, authorised against the roll's owner, guarded by the
 * history's own flag for that action, applied by the Roller, and answered by
 * editing the message with the buttons the new flags allow.
 *
 * Messages, embeds and the chat platform are not modelled; a reply is the
 * value `Reply` below, and whether the platform accepted an edit is the
 * parameter `delivered`.
 */
module Controller {
  import opened CustomId
  import opened Roll
  import opened Wrappers

  /** The legality query each button consults: `can_reroll()`, `can_free_reroll()` or `can_go_all_in()`. */
  predicate Allows(f: Flags, kind: ActionKind) {
    match kind
    case Reroll => f.reroll
    case FreeReroll => f.freeReroll
    case AllIn => f.allIn
  }

  /** Position of a kind in a view: reroll first, then free reroll, then all-in. */
  function Rank(kind: ActionKind): nat {
    match kind
    case Reroll => 0
    case FreeReroll => 1
    case AllIn => 2
  }

  predicate HasKind(view: seq<Button>, kind: ActionKind) {
    exists i :: 0 <= i < |view| && view[i].kind == kind
  }

  /**
   * The buttons of `RollView(user_id, dice_set, ...)`: one button per action
   * whose flag is set, in the fixed order, all owned by `userId` and all
   * carrying `diceSet`.
   */
  function ButtonSet(userId: nat, diceSet: string, f: Flags): (view: seq<Button>)
    ensures forall i :: 0 <= i < |view| ==> view[i].userId == userId && view[i].diceSet == diceSet
    ensures forall k :: HasKind(view, k) <==> Allows(f, k)
    ensures forall i, j :: 0 <= i < j < |view| ==> Rank(view[i].kind) < Rank(view[j].kind)
  {
    var view := (if f.reroll then [Button(Reroll, userId, diceSet)] else [])
              + (if f.freeReroll then [Button(FreeReroll, userId, diceSet)] else [])
              + (if f.allIn then [Button(AllIn, userId, diceSet)] else []);
    assert f.reroll ==> view[0].kind == Reroll;
    assert f.freeReroll ==> view[if f.reroll then 1 else 0].kind == FreeReroll;
    assert f.allIn ==> view[|view| - 1].kind == AllIn;
    view
  }

  /**
   * Every button of a view can be pressed after a restart: its identifier
   * decodes to the same button, so it reaches the handler of its own kind
   * with the same owner and dice set.
   */
  lemma ViewButtonsDecode(userId: nat, diceSet: string, f: Flags)
    requires IsDiceSetString(diceSet)
    ensures forall b :: b in ButtonSet(userId, diceSet, f) ==>
      Decode(Encode(b.kind, b.userId, b.diceSet)) == Some(b)
  {
    forall b | b in ButtonSet(userId, diceSet, f)
      ensures Decode(Encode(b.kind, b.userId, b.diceSet)) == Some(b)
    {
      EncodeThenDecode(b.kind, b.userId, b.diceSet);
    }
  }

  /** `RollView`: a view whose items are added one by one. */
  class RollView {
    var items: seq<Button>

    constructor (userId: nat, diceSet: string, canReroll: bool, canFreeReroll: bool, canGoAllIn: bool)
      ensures items == ButtonSet(userId, diceSet, Flags(canReroll, canFreeReroll, canGoAllIn))
    {
      items := [];
      new;
      if canReroll {
        AddItem(Button(Reroll, userId, diceSet));
      }
      if canFreeReroll {
        AddItem(Button(FreeReroll, userId, diceSet));
      }
      if canGoAllIn {
        AddItem(Button(AllIn, userId, diceSet));
      }
    }

    method AddItem(b: Button)
      modifies this
      ensures items == old(items) + [b]
    {
      items := items + [b];
    }
  }

  /** What a button press produces. */
  datatype Reply =
    | Ignored                                    // the identifier is not one of this bot's buttons
    | Denied(notice: string)                     // ephemeral notice to someone who does not own the roll
    | Raised(error: string)                      // the action is not available on this history
    | Edited(view: seq<Button>, delivered: bool) // the action was applied; the edit may have failed

  const NOT_OWNER_NOTICE: string := "You cannot re-roll someone else's roll."

  function GuardError(kind: ActionKind): string {
    match kind
    case Reroll => "Cannot perform reroll"
    case FreeReroll => "Cannot perform free reroll"
    case AllIn => "Cannot go all in"
  }

  /**
   * `interaction_check`: only the owner of the roll may press its buttons.
   * Once it passes, a view rendered for the presser is the owner's view.
   */
  predicate InteractionCheck(b: Button, actorId: nat): (ok: bool)
    ensures ok ==> forall f :: ButtonSet(actorId, b.diceSet, f) == ButtonSet(b.userId, b.diceSet, f)
    ensures !ok ==> actorId != b.userId
  {
    actorId == b.userId
  }

  /**
   * `_update_message`: the new view is derived from the history's current
   * flags, owned by the actor, with the button's dice set. A failed edit is
   * swallowed: the reply records it and nothing is undone.
   */
  method UpdateMessage(b: Button, actorId: nat, history: RollHistory, delivered: bool) returns (r: Reply)
    ensures r.Edited? && r.delivered == delivered
    ensures forall i :: 0 <= i < |r.view| ==> r.view[i].userId == actorId && r.view[i].diceSet == b.diceSet
    ensures forall k :: HasKind(r.view, k) <==> Allows(history.State(), k)
    ensures r.view == ButtonSet(actorId, b.diceSet, history.State())
  {
    var updated := new RollView(actorId, b.diceSet, history.canReroll, history.canFreeReroll, history.canGoAllIn);
    r := Edited(updated.items, delivered);
  }

  /**
   * The three `callback` bodies: the history's flag for the button's kind is
   * checked first; if it is off the callback raises and the history is left
   * as it was, otherwise the Roller applies the transition and the message is
   * updated from the flags it left.
   */
  method Callback(b: Button, actorId: nat, history: RollHistory, after: Flags, delivered: bool) returns (r: Reply)
    modifies history
    ensures !Allows(old(history.State()), b.kind) ==>
      r == Raised(GuardError(b.kind)) && unchanged(history)
    ensures Allows(old(history.State()), b.kind) ==>
      history.State() == after && r == Edited(ButtonSet(actorId, b.diceSet, after), delivered)
  {
    if !Allows(history.State(), b.kind) {
      return Raised(GuardError(b.kind));
    }
    var roller := new Roller(history);
    match b.kind {
      case Reroll => roller.Reroll(after);
      case FreeReroll => roller.FreeReroll(after);
      case AllIn => roller.AllIn(after);
    }
    r := UpdateMessage(b, actorId, history, delivered);
  }

  /**
   * A press of the button with identifier `customId` by user `actorId` on a
   * message whose recovered history is `history`; `after` stands for the
   * flags the Roller's transition leaves.
   */
  method Dispatch(customId: string, actorId: nat, history: RollHistory, after: Flags, delivered: bool)
    returns (r: Reply)
    modifies history
    // an identifier that fits no template never reaches a handler
    ensures Decode(customId).None? ==> r == Ignored && unchanged(history)
    // someone other than the owner is turned away and nothing changes
    ensures Decode(customId).Some? && actorId != Decode(customId).value.userId ==>
      r == Denied(NOT_OWNER_NOTICE) && unchanged(history)
    // the owner pressing an action the history no longer allows gets an error and nothing changes
    ensures Decode(customId).Some? && actorId == Decode(customId).value.userId
            && !Allows(old(history.State()), Decode(customId).value.kind) ==>
      r == Raised(GuardError(Decode(customId).value.kind)) && unchanged(history)
    // otherwise the transition is applied and the new view, owned by the same user, follows the new flags
    ensures Decode(customId).Some? && actorId == Decode(customId).value.userId
            && Allows(old(history.State()), Decode(customId).value.kind) ==>
      history.State() == after
      && r == Edited(ButtonSet(Decode(customId).value.userId, Decode(customId).value.diceSet, after), delivered)
  {
    var decoded := Decode(customId);
    if decoded.None? {
      return Ignored;
    }
    var b := decoded.value;
    if !InteractionCheck(b, actorId) {
      return Denied(NOT_OWNER_NOTICE);
    }
    r := Callback(b, actorId, history, after, delivered);
  }

  /**
   * The /roll command: a fresh history with the flags of the initial roll
   * (`rolled`, decided by the roll rules) and a view for the command's user.
   */
  method HandleRoll(actorId: nat, diceSet: string, rolled: Flags) returns (history: RollHistory, view: seq<Button>)
    ensures fresh(history) && history.State() == rolled
    ensures view == ButtonSet(actorId, diceSet, rolled)
  {
    history := new RollHistory(rolled);
    var rollView := new RollView(actorId, diceSet, history.canReroll, history.canFreeReroll, history.canGoAllIn);
    view := rollView.items;
  }
}
