# Roll buttons of the Outgunned dice bot, in Dafny

This project models the core of the bot's roll controller (`bot/controller.py`).
After a `/roll`, the bot renders up to three follow-up buttons: re-roll, free re-roll
and all in. Each button carries a textual identifier,
`roll:<kind>:user:<user id>:dice_set:<dice set>`. That identifier is the only
session state that survives a restart of the bot. When a button is pressed:

1. the identifier is matched against the three button templates;
2. the pressing user must be the roll's owner;
3. the roll history recovered from the message must still allow that action;
4. the Roller applies the transition;
5. the message is edited with the buttons the new flags allow. A failed edit
   is swallowed and nothing is rolled back.

Modules:

- `Wrappers`: `Option`.
- `Decimal`: `str(n)` for natural numbers (`Show`) and `int(s)` for ASCII digit
  strings (`Value`). Proves `int(str(n)) == n`, and that `str(int(s)) == s`
  exactly when `s` has no leading zero.
- `CustomId`: the action kinds, the button value `Button(kind, userId, diceSet)`,
  the encoder `Encode` (the three f-strings) and a decoder written by hand.
  `Match` matches one template against the whole string. `FromCustomId` is the
  `int(...)` conversion. `Decode` tries the three templates in turn. The lemmas
  are:
  - `Match` agrees with a reference reading of the template (`Fits`), in both
    directions;
  - encode-then-decode is the identity;
  - the three templates are disjoint;
  - decode-then-encode gives the identifier back exactly when the owner has no
    leading zero;
  - several kinds of malformed identifiers are rejected.
- `Roll`: `RollHistory`, a class holding the three legality flags. `Roller` is
  the class whose `Reroll`, `FreeReroll` and `AllIn` methods update a history in
  place. What a transition does to the flags is decided by the roll rules in
  `bot/roll.py`, which is not part of this model. Each transition therefore
  takes the flags it leaves as a parameter.
- `Controller`: these model the parts of `bot/controller.py` that handle a roll
  and its buttons:
  - `ButtonSet` gives the buttons of `RollView`, and the class `RollView` builds
    them with `AddItem`;
  - `InteractionCheck`, `Callback` and `UpdateMessage` are the button handlers;
  - `Dispatch` is a whole button press;
  - `HandleRoll` is the `/roll` command.

  A reply is a `Reply` value: `Ignored`, `Denied` with the ephemeral notice,
  `Raised` with the `RuntimeError` text, or `Edited` with the new view and
  whether the edit was delivered.

Inputs from outside the code are parameters:

- `actorId` is `interaction.user.id`;
- `history` is the `RollHistory` that `MessageParser` recovers from the pressed
  message;
- `after` (or `rolled`) is the flags the Roller leaves;
- `delivered` says whether `edit_message` succeeded.

In three places the code does something a reader might not expect, and the model follows the code:

- An action whose flag is off raises `RuntimeError('Cannot perform reroll')`
  (and the like). The callback does not turn this into a "no longer available"
  notice, so the model returns `Raised` with that text.
- The dice-set group is kept as text. Whether it names a real dice set
  is checked by `DiceSet(...)` in `bot/dice.py`, which is not part of this model.
- The model does not claim that a session ends after its first follow-up
  action. That rule lives in `bot/roll.py`. The controller only consults the
  flags.

## Model

| member | source | states |
|---|---|---|
| Decimal.ValueOfShow | bot/controller.py:171 | the owner text written by `{user_id}` is a non-empty digit string, and `int` of it gives back the same natural number |
| Decimal.ShowIsCanonical | bot/controller.py:192 | the owner text in an encoded identifier never has a leading zero |
| Decimal.ShowOfValue | bot/controller.py:131 | for a `[0-9]+` group, `str(int(g)) == g` holds exactly when `g` has no superfluous leading zero |
| CustomId.Encode | bot/controller.py:171 | the f-string `roll:<kind>:user:{user_id}:dice_set:{dice_set.value}`; the identifier fits its kind's template, with the decimal owner as the user-id group, exactly when the dice set is a non-empty word string |
| CustomId.Match | bot/controller.py:162 | one template (`roll:<kind>:user:(?P<user_id>[0-9]+):dice_set:(?P<dice_set>\w+)`, the same shape at :183 and :204) matched against the whole identifier; every match it reports fits the template with the groups it returns |
| CustomId.FromCustomId | bot/controller.py:130-133 | the button keeps the kind and the dice-set group, and its owner is `int` of the user-id group, whose decimal text is the group itself exactly when the group has no leading zero |
| CustomId.DigitRun | bot/controller.py:162 | the user-id group is the longest run of digits after the prefix: every character in it is a digit and the next one is not |
| CustomId.Decode | bot/controller.py:130-133 | an identifier decodes to nothing exactly when no template matches it; otherwise the button has the matching kind, owner `int(user_id)` and the dice-set group |
| CustomId.MatchSound | bot/controller.py:162 | every match the parser reports is `roll:<kind>:user:` + `[0-9]+` + `:dice_set:` + `\w+` (ASCII), filling the whole string |
| CustomId.MatchComplete | bot/controller.py:183 | every string of that shape is matched, with exactly those two groups |
| CustomId.MatchIff | bot/controller.py:204 | the parser accepts a string with groups (u, d) if and only if the string fits the template with those groups |
| CustomId.KindsDisjoint | bot/controller.py:162 | no identifier matches the templates of two different kinds (their literal prefixes differ at `roll:r`, `roll:f`, `roll:a`) |
| CustomId.EncodedMatches | bot/controller.py:171 | an encoded identifier matches its own kind's template, with the decimal owner and the dice set as groups |
| CustomId.EncodedMatchesOnlyItsKind | bot/controller.py:192 | an identifier encoded for one kind never matches another kind's template |
| CustomId.EncodeThenDecode | bot/controller.py:213 | for every kind, owner id ≥ 0 and non-empty word-character dice set, decoding the encoded identifier gives back the same kind, owner and dice set |
| CustomId.DecodeSound | bot/controller.py:130-133 | every accepted identifier fits the fixed pattern of the kind decoded, and its owner is `int` of the user-id text; an identifier that fits no template decodes to nothing |
| CustomId.DecodeThenEncode | bot/controller.py:131 | after a match, decoding yields `from_custom_id`'s button, and re-encoding it gives the identifier back exactly when the owner text has no leading zero (`007` becomes `7`) |
| CustomId.PrefixMismatch | bot/controller.py:162 | a string that differs from a template's literal prefix at any position does not match that template |
| CustomId.ForeignPrefixRejected | bot/controller.py:183 | an identifier that starts with none of the three prefixes (for instance one missing `user:`) is not recognised |
| CustomId.OnlyOwnPrefix | bot/controller.py:204 | text that starts with one kind's prefix cannot match another kind's template |
| CustomId.NonDigitOwnerRejected | bot/controller.py:162 | an identifier whose owner field is empty or starts with a non-digit is not recognised |
| CustomId.MissingDiceSetTagRejected | bot/controller.py:183 | an owner followed by anything other than `:dice_set:` (nothing at all, a non-digit such as `x`, or a `:` that does not begin `:dice_set:`) makes the identifier unrecognised |
| CustomId.EmptyDiceSetRejected | bot/controller.py:204 | an empty dice set makes the identifier unrecognised |
| CustomId.NonWordDiceSetRejected | bot/controller.py:162 | a dice set with a character outside `[A-Za-z0-9_]` makes the identifier unrecognised |
| Roll.RollHistory.constructor | bot/controller.py:175 | the recovered history holds the given three flags |
| Roll.Roller.Reroll | bot/controller.py:178 | the re-roll transition updates the history in place, leaving the flags the roll rules decide |
| Roll.Roller.FreeReroll | bot/controller.py:199 | the free re-roll transition updates the history in place, leaving the flags the roll rules decide |
| Roll.Roller.AllIn | bot/controller.py:220 | the all-in transition updates the history in place, leaving the flags the roll rules decide |
| Controller.ButtonSet | bot/controller.py:104-111 | the view has a button of a kind exactly when that kind's flag is set; its buttons are in the order re-roll, free re-roll, all in (so there is at most one of each); and all of them carry the same owner and dice set |
| Controller.RollView.constructor | bot/controller.py:104-111 | adding the buttons one by one, each only if its flag is set, yields exactly `ButtonSet` |
| Controller.RollView.AddItem | bot/controller.py:107 | `add_item` appends the button to the view's items |
| Controller.ViewButtonsDecode | bot/controller.py:106-111 | every button a view renders has an identifier that decodes back to that same button, so it reaches its own kind's handler after a restart |
| Controller.InteractionCheck | bot/controller.py:139-144 | when the check fails the presser is not the owner; when it passes, any view derived for the presser (`interaction.user.id`) is the same as the owner's view |
| Controller.UpdateMessage | bot/controller.py:146-159 | the new view is derived from the history's current flags, is owned by the actor and has the button's dice set; the reply records whether the edit was delivered and does not alter the history |
| Controller.Callback | bot/controller.py:173-180 | when the button's own flag is off, the callback raises that kind's error and leaves the history unchanged; otherwise the history takes the transition's flags, even when the edit fails, and the reply is the view for those flags |
| Controller.Dispatch | bot/controller.py:139-144 | an unrecognised identifier is ignored; a presser who is not the owner is denied with the ephemeral notice; either way the history is unchanged; otherwise the callback's guard and transition apply, and the new view is owned by the token's owner |
| Controller.HandleRoll | bot/controller.py:45-63 | the `/roll` reply carries the view derived from the flags of the initial roll, owned by the command's user |

## Left out

- Discord objects and I/O are abstracted away: interactions, embeds, `send_message`/`edit_message`, ephemeral delivery, async execution, button registration. An edit's success is the boolean `delivered`.
- Regular-expression semantics are replaced by an explicit parser of the whole string. The library is assumed to match the whole identifier; its matching mode is not part of this model.
- `\w` is restricted to ASCII `[A-Za-z0-9_]`. Python's Unicode `\w` also accepts other letters and digits, and those identifiers decode to nothing here.
- `DiceSet`, `MessageGenerator`, `MessageParser`, `Roller` internals and `channel_settings` come from files that are not part of this model. `bot/dice.py`, `bot/message.py`, `bot/roll.py` and `bot/channel_settings.py` are not part of this model.
- Because of that: no validation of the dice-set name, no message text, no parse errors of the message, no outcome list, and no eligibility or "terminal after one action" rules.
- Roll.Roller.Reroll: states only that the history ends with the flags the roll rules produce, because those rules are in `bot/roll.py`. The same holds for `FreeReroll` and `AllIn`.
- `SettingsController`, `CoinController`, `D6Controller` and `HelpController` are left out. They only forward to collaborators (`DiceSet`, `channel_settings`, `MessageGenerator`) and send the result.
- `dice_set_for_interaction` (bot/controller.py:17-22) is left out. It reads `channel_settings` and logs with `print`.
- `print` logging is left out: the callbacks' `Rerolling...`, `Free rerolling...` and `All in...` (bot/controller.py:174, :195, :216) and the failed-edit message in `_update_message` (bot/controller.py:159). Logging does not change any state.
- Button labels (`Re-roll`, `Free Re-roll`, `All In`) and styles (green, blurple, red) at bot/controller.py:169-170, :190-191 and :211-212 are left out. They only affect how a button is displayed.
- The model takes `DiceSet(d).value == d`. The decoded dice-set text is carried into the new view and its identifiers unchanged, where the source goes through `DiceSet(match['dice_set'])` and `.value` (bot/controller.py:132, :149, :171).
- Dice randomness is left out. The flags a roll leaves are a parameter.
- If a `callback` raises, the exception goes to the platform library's error handler. The model stops at the `Raised` reply.
- Negative user ids are left out. The owner is a natural number: Discord ids are non-negative and the template admits only digits.
