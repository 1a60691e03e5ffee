/**
 * The textual identifier carried by every follow-up button of a roll message:
 *
 *   roll:<kind>:user:<user id>:dice_set:<dice set>
 *
 * with <kind> one of `reroll`, `free_reroll`, `all_in`. A button's identifier
 * is the only part of a roll session that survives a restart of the bot, so
 * the encoder and the hand-written decoder below are proved to be inverse.
 */
module CustomId {
  import opened Wrappers
  import Decimal

  /** Which follow-up action a button triggers. */
  datatype ActionKind = Reroll | FreeReroll | AllIn

  /** A follow-up button: its action, the user who owns the roll, and the dice set's short string. */
  datatype Button = Button(kind: ActionKind, userId: nat, diceSet: string)

  /** The two named groups of a template match, as raw text. */
  datatype Groups = Groups(userId: string, diceSet: string)

  function KindName(kind: ActionKind): string {
    match kind
    case Reroll => "reroll"
    case FreeReroll => "free_reroll"
    case AllIn => "all_in"
  }

  /** The literal text of a template up to the user-id group: `roll:<kind>:user:`. */
  function Prefix(kind: ActionKind): string {
    "roll:" + KindName(kind) + ":user:"
  }

  /** The literal text between the two groups. */
  const DICE_SET_TAG: string := ":dice_set:"

  /** An ASCII word character, `[A-Za-z0-9_]`. */
  predicate IsWordChar(c: char) {
    'a' <= c <= 'z' || 'A' <= c <= 'Z' || '0' <= c <= '9' || c == '_'
  }

  /** What the group `\w+` accepts, restricted to ASCII. */
  predicate IsDiceSetString(s: string) {
    |s| > 0 && forall i :: 0 <= i < |s| ==> IsWordChar(s[i])
  }

  /**
   * The identifier a button is created with: the f-string
   * `roll:<kind>:user:{user_id}:dice_set:{dice_set.value}`.
   */
  function Encode(kind: ActionKind, userId: nat, diceSet: string): (s: string)
    ensures Fits(kind, s, Decimal.Show(userId), diceSet) <==> IsDiceSetString(diceSet)
  {
    Decimal.ValueOfShow(userId);
    Prefix(kind) + Decimal.Show(userId) + DICE_SET_TAG + diceSet
  }

  /**
   * Reference reading of a template: `s` matches the whole template of `kind`
   * with `userId` and `diceSet` as its two groups.
   */
  ghost predicate Fits(kind: ActionKind, s: string, userId: string, diceSet: string) {
    s == Prefix(kind) + userId + DICE_SET_TAG + diceSet
    && Decimal.IsDigitString(userId)
    && IsDiceSetString(diceSet)
  }

  /** The length of the longest prefix of `s` made of digits. */
  function DigitRun(s: string): (n: nat)
    ensures n <= |s|
    ensures forall i :: 0 <= i < n ==> Decimal.IsDigit(s[i])
    ensures n < |s| ==> !Decimal.IsDigit(s[n])
  {
    if |s| > 0 && Decimal.IsDigit(s[0]) then 1 + DigitRun(s[1..]) else 0
  }

  /** The text after the literal `p`, when `s` starts with `p`. */
  function StripPrefix(p: string, s: string): (r: Option<string>)
    ensures r.Some? <==> |p| <= |s| && s[..|p|] == p
    ensures r.Some? ==> s == p + r.value
  {
    if |p| <= |s| && s[..|p|] == p then Some(s[|p|..]) else None
  }

  lemma StripConcat(p: string, t: string)
    ensures StripPrefix(p, p + t) == Some(t)
  {
    assert (p + t)[..|p|] == p;
    assert (p + t)[|p|..] == t;
  }

  /**
   * Whole-string match of the template of `kind` against `s`. The user-id
   * group cannot contain the `:` that follows it, so it is the maximal digit
   * run after the prefix.
   */
  function Match(kind: ActionKind, s: string): (r: Option<Groups>)
    ensures r.Some? ==> Fits(kind, s, r.value.userId, r.value.diceSet)
  {
    match StripPrefix(Prefix(kind), s)
    case None => None
    case Some(rest) =>
      var n := DigitRun(rest);
      if n == 0 then None
      else
        match StripPrefix(DICE_SET_TAG, rest[n..])
        case None => None
        case Some(d) => if IsDiceSetString(d) then Some(Groups(rest[..n], d)) else None
  }

  /** `from_custom_id`: the owner is `int` of the user-id group, the dice set is the other group. */
  function FromCustomId(kind: ActionKind, g: Groups): (b: Button)
    requires Decimal.IsDigitString(g.userId)
    ensures b.kind == kind && b.diceSet == g.diceSet
    ensures Decimal.Show(b.userId) == g.userId <==> Decimal.IsCanonical(g.userId)
  {
    Decimal.ShowOfValue(g.userId);
    Button(kind, Decimal.Value(g.userId), g.diceSet)
  }

  /**
   * The decoder: the first of the three templates that matches the identifier
   * builds the button; an identifier that fits none is not a button of this bot.
   */
  function Decode(s: string): (r: Option<Button>)
    ensures r.None? <==> forall k :: Match(k, s).None?
    ensures r.Some? ==> Match(r.value.kind, s).Some?
    ensures r.Some? ==> r.value == FromCustomId(r.value.kind, Match(r.value.kind, s).value)
  {
    if Match(Reroll, s).Some? then MatchedButton(Reroll, s)
    else if Match(FreeReroll, s).Some? then MatchedButton(FreeReroll, s)
    else if Match(AllIn, s).Some? then MatchedButton(AllIn, s)
    else None
  }

  function MatchedButton(kind: ActionKind, s: string): (r: Option<Button>)
    requires Match(kind, s).Some?
    ensures r.Some? && r.value.kind == kind
  {
    MatchSound(kind, s);
    Some(FromCustomId(kind, Match(kind, s).value))
  }

  /** Every match the parser reports is a match of the template. */
  lemma MatchSound(kind: ActionKind, s: string)
    requires Match(kind, s).Some?
    ensures Fits(kind, s, Match(kind, s).value.userId, Match(kind, s).value.diceSet)
  {
    var rest := StripPrefix(Prefix(kind), s).value;
    var n := DigitRun(rest);
    var d := StripPrefix(DICE_SET_TAG, rest[n..]).value;
    assert rest == rest[..n] + rest[n..];
    assert Match(kind, s).value == Groups(rest[..n], d);
  }

  /** Every match of the template is found by the parser, with the same groups. */
  lemma MatchComplete(kind: ActionKind, s: string, userId: string, diceSet: string)
    requires Fits(kind, s, userId, diceSet)
    ensures Match(kind, s) == Some(Groups(userId, diceSet))
  {
    var rest := userId + (DICE_SET_TAG + diceSet);
    assert s == Prefix(kind) + rest;
    StripConcat(Prefix(kind), rest);
    DigitRunStopsAtTag(userId, DICE_SET_TAG + diceSet);
    assert rest[..|userId|] == userId;
    assert rest[|userId|..] == DICE_SET_TAG + diceSet;
    StripConcat(DICE_SET_TAG, diceSet);
  }

  /** The digit run of a digit string followed by text that does not start with a digit is that digit string. */
  lemma {:induction false} DigitRunStopsAtTag(digits: string, tail: string)
    requires forall i :: 0 <= i < |digits| ==> Decimal.IsDigit(digits[i])
    requires |tail| == 0 || !Decimal.IsDigit(tail[0])
    ensures DigitRun(digits + tail) == |digits|
  {
    if |digits| > 0 {
      assert (digits + tail)[1..] == digits[1..] + tail;
      DigitRunStopsAtTag(digits[1..], tail);
    }
  }

  /** The parser agrees with the template, in both directions. */
  lemma MatchIff(kind: ActionKind, s: string, userId: string, diceSet: string)
    ensures Match(kind, s) == Some(Groups(userId, diceSet)) <==> Fits(kind, s, userId, diceSet)
  {
    if Match(kind, s) == Some(Groups(userId, diceSet)) {
      MatchSound(kind, s);
    }
    if Fits(kind, s, userId, diceSet) {
      MatchComplete(kind, s, userId, diceSet);
    }
  }

  /** A template whose literal prefix is not at the start of `s` does not match it. */
  lemma PrefixMismatch(kind: ActionKind, s: string, i: nat)
    requires i < |Prefix(kind)| && (i >= |s| || s[i] != Prefix(kind)[i])
    ensures Match(kind, s).None?
  {
    if |Prefix(kind)| <= |s| {
      assert s[..|Prefix(kind)|][i] != Prefix(kind)[i];
    }
  }

  /**
   * The templates are disjoint: the character after `roll:` is `r`, `f` or
   * `a`, so no identifier matches the templates of two different kinds.
   */
  lemma KindsDisjoint(k1: ActionKind, k2: ActionKind, s: string)
    requires k1 != k2
    ensures Match(k1, s).None? || Match(k2, s).None?
  {
    if Match(k1, s).Some? {
      var rest := StripPrefix(Prefix(k1), s).value;
      OnlyOwnPrefix(k1, rest);
    }
  }

  /** Text that starts with one kind's prefix matches no other kind's template. */
  lemma OnlyOwnPrefix(kind: ActionKind, rest: string)
    ensures forall other :: other != kind ==> Match(other, Prefix(kind) + rest).None?
  {
    var s := Prefix(kind) + rest;
    forall other | other != kind
      ensures Match(other, s).None?
    {
      assert s[5] == Prefix(kind)[5] != Prefix(other)[5];
      PrefixMismatch(other, s, 5);
    }
  }

  lemma EncodedMatches(kind: ActionKind, userId: nat, diceSet: string)
    requires IsDiceSetString(diceSet)
    ensures Match(kind, Encode(kind, userId, diceSet)) == Some(Groups(Decimal.Show(userId), diceSet))
  {
    Decimal.ValueOfShow(userId);
    MatchComplete(kind, Encode(kind, userId, diceSet), Decimal.Show(userId), diceSet);
  }

  /** An identifier encoded for one kind never matches the template of another. */
  lemma EncodedMatchesOnlyItsKind(kind: ActionKind, other: ActionKind, userId: nat, diceSet: string)
    requires other != kind
    ensures Match(other, Encode(kind, userId, diceSet)).None?
  {
    assert Encode(kind, userId, diceSet) == Prefix(kind) + (Decimal.Show(userId) + DICE_SET_TAG + diceSet);
    OnlyOwnPrefix(kind, Decimal.Show(userId) + DICE_SET_TAG + diceSet);
  }

  /**
   * Round trip: decoding the identifier of a button whose dice set is a
   * word string gives back the same kind, owner and dice set.
   */
  lemma EncodeThenDecode(kind: ActionKind, userId: nat, diceSet: string)
    requires IsDiceSetString(diceSet)
    ensures Decode(Encode(kind, userId, diceSet)) == Some(Button(kind, userId, diceSet))
  {
    var s := Encode(kind, userId, diceSet);
    EncodedMatches(kind, userId, diceSet);
    Decimal.ValueOfShow(userId);
    forall other | other != kind
      ensures Match(other, s).None?
    {
      EncodedMatchesOnlyItsKind(kind, other, userId, diceSet);
    }
  }

  /**
   * Every identifier the decoder accepts fits the fixed pattern of the kind it
   * reports, and its owner is `int` of the user-id text; any identifier that
   * fits no template decodes to None.
   */
  lemma DecodeSound(s: string)
    ensures Decode(s).Some? ==>
      exists u :: Fits(Decode(s).value.kind, s, u, Decode(s).value.diceSet)
                  && Decimal.Value(u) == Decode(s).value.userId
    ensures (forall k, u, d :: !Fits(k, s, u, d)) ==> Decode(s).None?
  {
    if Decode(s).Some? {
      var b := Decode(s).value;
      var g := Match(b.kind, s).value;
      MatchSound(b.kind, s);
      assert Fits(b.kind, s, g.userId, b.diceSet) && Decimal.Value(g.userId) == b.userId;
    }
  }

  /**
   * Decode-then-encode is not the identity: it gives back the identifier
   * exactly when the user-id text has no leading zero.
   */
  lemma DecodeThenEncode(kind: ActionKind, s: string, g: Groups)
    requires Match(kind, s) == Some(g)
    ensures Decode(s) == Some(FromCustomId(kind, g))
    ensures Encode(kind, Decimal.Value(g.userId), g.diceSet) == s <==> Decimal.IsCanonical(g.userId)
  {
    MatchSound(kind, s);
    forall other | other != kind
      ensures Match(other, s).None?
    {
      KindsDisjoint(kind, other, s);
    }
    Decimal.ShowOfValue(g.userId);
    var e := Encode(kind, Decimal.Value(g.userId), g.diceSet);
    if e == s {
      assert Decimal.Show(Decimal.Value(g.userId)) == g.userId by {
        EncodedMatches(kind, Decimal.Value(g.userId), g.diceSet);
      }
    }
  }

  /** An identifier that starts with none of the three prefixes (`roll:reroll:user:`, ...) is rejected. */
  lemma ForeignPrefixRejected(s: string)
    requires forall k :: |s| < |Prefix(k)| || s[..|Prefix(k)|] != Prefix(k)
    ensures Decode(s).None?
  {
  }

  /** An owner field that does not start with a digit (for instance `ab`, or nothing at all) is rejected. */
  lemma NonDigitOwnerRejected(kind: ActionKind, rest: string)
    requires |rest| == 0 || !Decimal.IsDigit(rest[0])
    ensures Decode(Prefix(kind) + rest).None?
  {
    StripConcat(Prefix(kind), rest);
    OnlyOwnPrefix(kind, rest);
  }

  /** An owner not followed by the `:dice_set:` segment (nothing, `x...`, `:basic`, ...) is rejected. */
  lemma MissingDiceSetTagRejected(kind: ActionKind, userId: string, rest: string)
    requires Decimal.IsDigitString(userId)
    requires |rest| == 0 || !Decimal.IsDigit(rest[0])
    requires |rest| < |DICE_SET_TAG| || rest[..|DICE_SET_TAG|] != DICE_SET_TAG
    ensures Decode(Prefix(kind) + userId + rest).None?
  {
    assert Prefix(kind) + userId + rest == Prefix(kind) + (userId + rest);
    StripConcat(Prefix(kind), userId + rest);
    DigitRunStopsAtTag(userId, rest);
    assert (userId + rest)[|userId|..] == rest;
    OnlyOwnPrefix(kind, userId + rest);
  }

  /** An empty dice set is rejected. */
  lemma EmptyDiceSetRejected(kind: ActionKind, userId: string)
    requires Decimal.IsDigitString(userId)
    ensures Decode(Prefix(kind) + userId + DICE_SET_TAG).None?
  {
    assert Prefix(kind) + userId + DICE_SET_TAG == Prefix(kind) + (userId + DICE_SET_TAG);
    StripConcat(Prefix(kind), userId + DICE_SET_TAG);
    DigitRunStopsAtTag(userId, DICE_SET_TAG);
    assert (userId + DICE_SET_TAG)[|userId|..] == DICE_SET_TAG;
    StripConcat(DICE_SET_TAG, []);
    OnlyOwnPrefix(kind, userId + DICE_SET_TAG);
  }

  /** A dice set holding a character outside `[A-Za-z0-9_]` is rejected. */
  lemma NonWordDiceSetRejected(kind: ActionKind, userId: string, diceSet: string, i: nat)
    requires Decimal.IsDigitString(userId)
    requires i < |diceSet| && !IsWordChar(diceSet[i])
    ensures Decode(Prefix(kind) + userId + DICE_SET_TAG + diceSet).None?
  {
    var rest := userId + (DICE_SET_TAG + diceSet);
    assert Prefix(kind) + userId + DICE_SET_TAG + diceSet == Prefix(kind) + rest;
    StripConcat(Prefix(kind), rest);
    DigitRunStopsAtTag(userId, DICE_SET_TAG + diceSet);
    assert rest[|userId|..] == DICE_SET_TAG + diceSet;
    StripConcat(DICE_SET_TAG, diceSet);
    OnlyOwnPrefix(kind, rest);
  }
}
