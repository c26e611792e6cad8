/**
 * The outbound SMS message (class `Sms`): a mutable record whose setters
 * assign fields, whose recipient list and per-recipient variable maps are
 * updated in place, and whose two temporal setters validate before they
 * assign. The pure functions below give the meaning of the list and map
 * updates; the class methods are proved against them.
 */
module DataStructure {
  import opened Wrappers
  import ValidityPeriods
  import ResponseCodes

  /** Template variables of one recipient: variable name to value. */
  type Variables = map<string, string>

  /** The exceptions the two validating setters throw. */
  datatype SmsError = InvalidDeliveryStart | InvalidValidityPeriod

  // ---------------------------------------------------------------------
  // Recipient list

  /**
   * Position of the first element of `s` equal to `x`, as `array_search`
   * finds it (here with string equality; see README).
   */
  function IndexOf(s: seq<string>, x: string): (i: Option<nat>)
    ensures i.None? <==> x !in s
    ensures i.Some? ==> i.value < |s| && s[i.value] == x
    ensures i.Some? ==> forall j :: 0 <= j < i.value ==> s[j] != x
  {
    if s == [] then None
    else if s[0] == x then Some(0)
    else
      match IndexOf(s[1..], x)
      case None => None
      case Some(j) => Some(j + 1)
  }

  /**
   * `s` without its first element equal to `x`; the remaining elements keep
   * their relative order, and an absent `x` leaves `s` as it is.
   */
  function RemoveFirst(s: seq<string>, x: string): (r: seq<string>)
    ensures |r| == if x in s then |s| - 1 else |s|
    ensures x !in s ==> r == s
    ensures x in s ==> exists i :: 0 <= i < |s| && s[i] == x && x !in s[..i] && r == s[..i] + s[i + 1..]
    ensures multiset(r) == multiset(s) - multiset{x}
  {
    match IndexOf(s, x)
    case None => s
    case Some(i) =>
      assert s == s[..i] + [s[i]] + s[i + 1..];
      s[..i] + s[i + 1..]
  }

  /** Appending a recipient that is not yet listed and then removing it restores the list. */
  lemma RemoveFirstUndoesAppend(s: seq<string>, x: string)
    requires x !in s
    ensures RemoveFirst(s + [x], x) == s
  {
  }

  /** With or without an earlier copy, append-then-remove keeps the same recipients, counted with multiplicity. */
  lemma RemoveFirstAfterAppendSameMultiset(s: seq<string>, x: string)
    ensures multiset(RemoveFirst(s + [x], x)) == multiset(s)
  {
  }

  /**
   * When the recipient is already listed, append-then-remove deletes the
   * EARLIER copy, so the list is reordered rather than restored.
   */
  lemma RemoveFirstAfterAppendReorders()
    ensures RemoveFirst(["a", "b"] + ["a"], "a") == ["b", "a"] != ["a", "b"]
  {
  }

  // ---------------------------------------------------------------------
  // Recipient variables

  /** Variables stored for `recipient`, empty when it has none. */
  function VariablesOf(vars: map<string, Variables>, recipient: string): Variables {
    if recipient in vars then vars[recipient] else map[]
  }

  /**
   * `vars` after `addRecipientVariable`: the inner map of `recipient` is
   * created if missing, then `name` is set to `value`; nothing else changes.
   */
  function WithVariable(vars: map<string, Variables>, recipient: string, name: string, value: string)
    : (m: map<string, Variables>)
    ensures m.Keys == vars.Keys + {recipient}
    ensures m[recipient].Keys == VariablesOf(vars, recipient).Keys + {name}
    ensures m[recipient][name] == value
    ensures forall n :: n in VariablesOf(vars, recipient) && n != name ==>
              m[recipient][n] == VariablesOf(vars, recipient)[n]
    ensures forall r :: r in vars && r != recipient ==> m[r] == vars[r]
  {
    var inner := if recipient in vars then vars[recipient] else map[];
    vars[recipient := inner[name := value]]
  }

  /**
   * `vars` after `removeRecipientVariable`: only `name` under `recipient`
   * goes; the outer keys stay, even when the inner map becomes empty, and
   * an absent recipient or name changes nothing.
   */
  function WithoutVariable(vars: map<string, Variables>, recipient: string, name: string)
    : (m: map<string, Variables>)
    ensures m.Keys == vars.Keys
    ensures recipient in vars ==> m[recipient].Keys == vars[recipient].Keys - {name}
    ensures recipient in vars ==> forall n :: n in m[recipient] ==> m[recipient][n] == vars[recipient][n]
    ensures forall r :: r in vars && r != recipient ==> m[r] == vars[r]
    ensures recipient !in vars || name !in vars[recipient] ==> m == vars
  {
    if recipient in vars then
      assert name !in vars[recipient] ==> vars[recipient] - {name} == vars[recipient];
      assert vars[recipient := vars[recipient]] == vars;
      vars[recipient := vars[recipient] - {name}]
    else vars
  }

  /**
   * Adding a fresh variable and removing it again restores every inner map,
   * but leaves an (empty) inner map behind for a recipient that had none.
   */
  lemma WithoutVariableUndoesWithVariable(vars: map<string, Variables>, recipient: string, name: string, value: string)
    requires name !in VariablesOf(vars, recipient)
    ensures WithoutVariable(WithVariable(vars, recipient, name, value), recipient, name)
            == vars[recipient := VariablesOf(vars, recipient)]
    ensures recipient in vars ==>
              WithoutVariable(WithVariable(vars, recipient, name, value), recipient, name) == vars
  {
    var m := WithoutVariable(WithVariable(vars, recipient, name, value), recipient, name);
    assert m[recipient] == VariablesOf(vars, recipient);
    assert recipient in vars ==> vars[recipient := VariablesOf(vars, recipient)] == vars;
  }

  // ---------------------------------------------------------------------
  // Validation of the temporal fields

  /**
   * `setDeliveryStart` rejects a start strictly earlier than the current
   * time (whole seconds); no start, or a start equal to now, is accepted.
   */
  predicate DeliveryStartInPast(start: Option<int>, now: int) {
    start.Some? && start.value < now
  }

  /** A start rejected now is rejected at every later time, and one accepted now was accepted at every earlier time. */
  lemma DeliveryStartInPastMonotone(start: Option<int>, now: int, later: int)
    requires now <= later
    ensures DeliveryStartInPast(start, now) ==> DeliveryStartInPast(start, later)
    ensures !DeliveryStartInPast(start, later) ==> !DeliveryStartInPast(start, now)
  {
  }

  /** The boundary: a start equal to now, and no start, are both accepted. */
  lemma DeliveryStartBoundary(now: int)
    ensures !DeliveryStartInPast(Some(now), now)
    ensures !DeliveryStartInPast(None, now)
    ensures DeliveryStartInPast(Some(now - 1), now)
  {
  }

  /** `setValidityPeriod` accepts a minutes component in `[MIN, MAX]`. */
  predicate ValidMinutes(minutes: int) {
    ValidityPeriods.MIN <= minutes <= ValidityPeriods.MAX
  }

  /** `setValidityPeriod` rejects a present period whose minutes are out of bounds. */
  predicate RejectsValidityPeriod(period: Option<int>) {
    period.Some? && !ValidMinutes(period.value)
  }

  /** The bounds enforced locally are the ones the gateway documents for code 34. */
  lemma ValidityBoundsMatchGateway(minutes: int)
    ensures ValidMinutes(minutes) <==> ResponseCodes.DocumentedValidityPeriod(minutes)
    ensures ResponseCodes.ToCode(ResponseCodes.InvalidValidityPeriod) == 34
  {
  }

  /** The exact edges of the accepted range. */
  lemma ValidityPeriodBoundary()
    ensures !RejectsValidityPeriod(Some(5)) && !RejectsValidityPeriod(Some(2880))
    ensures RejectsValidityPeriod(Some(4)) && RejectsValidityPeriod(Some(2881))
    ensures !RejectsValidityPeriod(None)
  {
  }

  // ---------------------------------------------------------------------
  // The message object

  /**
   * One SMS. Fields that the source leaves unset until their setter runs
   * are `None` (PHP `null`) until then. A timestamp is epoch seconds, and a
   * validity period is only the minutes component the source checks.
   * Dafny fields are readable, so each getter is the field itself.
   */
  class Sms {
    var sender: Option<string>
    var recipients: seq<string>
    var recipientVariables: map<string, Variables>
    var text: Option<string>
    var userReference: Option<string>
    var deliveryStart: Option<int>
    var validityPeriod: Option<int>

    /** A fresh message: no recipients, no variables, every other field unset. */
    constructor ()
      ensures recipients == [] && recipientVariables == map[]
      ensures sender == None && text == None && userReference == None
      ensures deliveryStart == None && validityPeriod == None
      ensures !HasRecipients() && !HasRecipientVariables()
    {
      recipients := [];
      recipientVariables := map[];
      sender := None;
      text := None;
      userReference := None;
      deliveryStart := None;
      validityPeriod := None;
    }

    method SetSender(value: string)
      modifies this`sender
      ensures sender == Some(value)
    {
      sender := Some(value);
    }

    method SetRecipients(value: seq<string>)
      modifies this`recipients
      ensures recipients == value
    {
      recipients := value;
    }

    /** Appends, duplicates included. */
    method AddRecipient(recipient: string)
      modifies this`recipients
      ensures recipients == old(recipients) + [recipient]
      ensures HasRecipients()
    {
      recipients := recipients + [recipient];
    }

    /**
     * Drops the first equal recipient, if any, and the recipient's
     * variables whether or not it was listed. (PHP's `unset` leaves a gap
     * in the array keys; the list here is re-packed.)
     */
    method RemoveRecipient(recipient: string)
      modifies this`recipients, this`recipientVariables
      ensures recipients == RemoveFirst(old(recipients), recipient)
      ensures recipientVariables == old(recipientVariables) - {recipient}
    {
      recipients := RemoveFirst(recipients, recipient);
      recipientVariables := recipientVariables - {recipient};
    }

    /** True iff at least one recipient is listed. */
    function HasRecipients(): (b: bool)
      reads this
      ensures b <==> |recipients| > 0
    {
      recipients != []
    }

    /** Replaces the whole variable map of one recipient. */
    method SetRecipientVariables(recipient: string, variables: Variables)
      modifies this`recipientVariables
      ensures recipientVariables.Keys == old(recipientVariables).Keys + {recipient}
      ensures recipientVariables[recipient] == variables
      ensures forall r :: r in old(recipientVariables) && r != recipient ==>
                recipientVariables[r] == old(recipientVariables)[r]
    {
      recipientVariables := recipientVariables[recipient := variables];
    }

    /** Creates the recipient's variable map if missing, then sets one variable. */
    method AddRecipientVariable(recipient: string, name: string, value: string)
      modifies this`recipientVariables
      ensures recipientVariables == WithVariable(old(recipientVariables), recipient, name, value)
      ensures HasRecipientVariables()
    {
      if recipient !in recipientVariables {
        recipientVariables := recipientVariables[recipient := map[]];
      }
      recipientVariables := recipientVariables[recipient := recipientVariables[recipient][name := value]];
    }

    /** Removes one variable of one recipient; the recipient's entry stays. */
    method RemoveRecipientVariable(recipient: string, name: string)
      modifies this`recipientVariables
      ensures recipientVariables == WithoutVariable(old(recipientVariables), recipient, name)
      ensures HasRecipientVariables() == old(HasRecipientVariables())
    {
      if recipient in recipientVariables {
        recipientVariables := recipientVariables[recipient := recipientVariables[recipient] - {name}];
      }
    }

    /** True iff some recipient has an entry in the variable map. */
    function HasRecipientVariables(): (b: bool)
      reads this
      ensures b <==> |recipientVariables| > 0
    {
      recipientVariables != map[]
    }

    /** Empties the variable map; the recipient list is not touched. */
    method ClearRecipientVariables()
      modifies this`recipientVariables
      ensures recipientVariables == map[]
      ensures !HasRecipientVariables()
    {
      recipientVariables := map[];
    }

    method SetText(value: string)
      modifies this`text
      ensures text == Some(value)
    {
      text := Some(value);
    }

    method SetUserReference(value: string)
      modifies this`userReference
      ensures userReference == Some(value)
    {
      userReference := Some(value);
    }

    /**
     * Fails with `InvalidDeliveryStart`, before assigning, when `start` lies
     * strictly before `now`; otherwise stores `start` (`None` clears it).
     */
    method SetDeliveryStart(start: Option<int>, now: int) returns (outcome: Outcome<SmsError>)
      modifies this`deliveryStart
      ensures outcome.Fail? <==> DeliveryStartInPast(start, now)
      ensures outcome.Fail? ==> outcome.error == InvalidDeliveryStart && deliveryStart == old(deliveryStart)
      ensures outcome.Pass? ==> deliveryStart == start
    {
      if start.Some? && start.value < now {
        return Fail(InvalidDeliveryStart);
      }
      deliveryStart := start;
      outcome := Pass;
    }

    /**
     * Fails with `InvalidValidityPeriod`, before assigning, when the minutes
     * of `period` lie outside `[MIN, MAX]`; otherwise stores `period`
     * (`None` clears it).
     */
    method SetValidityPeriod(period: Option<int>) returns (outcome: Outcome<SmsError>)
      modifies this`validityPeriod
      ensures outcome.Fail? <==> RejectsValidityPeriod(period)
      ensures outcome.Fail? ==> outcome.error == InvalidValidityPeriod && validityPeriod == old(validityPeriod)
      ensures outcome.Pass? ==> validityPeriod == period
    {
      if period.Some? && (period.value < ValidityPeriods.MIN || period.value > ValidityPeriods.MAX) {
        return Fail(InvalidValidityPeriod);
      }
      validityPeriod := period;
      outcome := Pass;
    }
  }

  /**
   * Clients: what a caller can conclude about a message from the contracts
   * above alone.
   */
  method ExampleRejectedValidityPeriod() {
    var sms := new Sms();
    var outcome := sms.SetValidityPeriod(Some(4));
    assert outcome == Fail(InvalidValidityPeriod) && sms.validityPeriod == None;
  }

  method ExampleMessage(now: int) {
    var alice, bob := "+391111111111", "+392222222222";
    var sms := new Sms();
    sms.AddRecipient(alice);
    sms.AddRecipient(bob);
    assert sms.recipients == [alice, bob];
    sms.AddRecipientVariable(bob, "name", "Bob");
    assert sms.recipientVariables[bob]["name"] == "Bob";
    ExampleFields(sms, now);
    assert sms.recipients == [alice, bob] && sms.recipientVariables[bob]["name"] == "Bob";
    assert sms.HasRecipients() && sms.HasRecipientVariables();
  }

  method ExampleFields(sms: Sms, now: int)
    modifies sms
    ensures sms.recipients == old(sms.recipients) && sms.recipientVariables == old(sms.recipientVariables)
  {
    sms.SetSender("ACME");
    sms.SetText("Hello {name}");
    sms.SetUserReference("order-42");
    var noStart := sms.SetDeliveryStart(None, now);
    var sixty := sms.SetValidityPeriod(Some(60));
    assert noStart == Pass && sixty == Pass;
    assert sms.sender == Some("ACME");
    assert sms.text == Some("Hello {name}") && sms.userReference == Some("order-42");
    assert sms.deliveryStart == None && sms.validityPeriod == Some(60);
  }

  method ExampleRejectedDeliveryStart(now: int) {
    var sms := new Sms();
    var accepted := sms.SetDeliveryStart(Some(now), now);
    var rejected := sms.SetDeliveryStart(Some(now - 1), now);
    assert accepted == Pass && rejected == Fail(InvalidDeliveryStart);
    assert sms.deliveryStart == Some(now);
  }

  method ExampleRemoveRecipient(alice: string, bob: string)
    requires alice != bob
  {
    RemoveFirstUndoesAppend([alice], bob);
    var sms := new Sms();
    sms.AddRecipient(alice);
    sms.AddRecipient(bob);
    assert sms.recipients == [alice] + [bob];
    sms.RemoveRecipient(bob);
    assert sms.recipients == [alice];
  }

  method ExampleClearRecipientVariables(alice: string) {
    var sms := new Sms();
    sms.AddRecipient(alice);
    sms.AddRecipientVariable(alice, "name", "Alice");
    sms.ClearRecipientVariables();
    assert sms.recipients == [alice] && !sms.HasRecipientVariables();
  }

  /** Removing a recipient that was never listed still drops its orphan variables. */
  method ExampleRemoveOrphanVariables(bob: string) {
    var sms := new Sms();
    sms.AddRecipientVariable(bob, "name", "Bob");
    sms.RemoveRecipient(bob);
    assert sms.recipients == [] && bob !in sms.recipientVariables;
  }
}
