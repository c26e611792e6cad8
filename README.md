# Skebby REST client: SMS message and gateway response codes

This project models two parts of a PHP client for the Skebby SMS gateway and proves properties of them in Dafny:

- **`Sms`** (`DataStructure.Sms`, in `sms.dfy`) is the outbound message. It is a mutable object with a sender, an ordered recipient list, per-recipient template variables, a text, a user reference, an optional delivery start and an optional validity period. Its methods append and remove recipients, update nested variable maps, and validate both temporal fields before assigning them. The pure functions `IndexOf`, `RemoveFirst`, `WithVariable` and `WithoutVariable` say what the list and map updates mean. The class methods are proved against those functions.
- **`ResponseCodes`** (`response_codes.dfy`) is the closed table of 24 error codes the gateway returns. Each constant is one constructor of `ResponseCode`. `ToCode` gives a constructor's integer value. `FromCode` decodes an integer and returns `None` for a value that names no constant.

`ValidityPeriods` (`validity_periods.dfy`) holds the bounds 5 and 2880 minutes, and `Wrappers` (`wrappers.dfy`) holds `Option` and `Outcome`.

Modelling choices:
- PHP `null` is `None`. The sender, text, user reference, delivery start and validity period stay `None` until their setter runs, as in the PHP constructor.
- A timestamp is whole epoch seconds.
- A validity period is only its minutes component (`DateInterval::$i`), because that is the only part the setter checks.
- The current time, which the source reads with `time()`, is a parameter `now` of `SetDeliveryStart`.
- A thrown exception becomes `Fail(InvalidDeliveryStart)` or `Fail(InvalidValidityPeriod)`. When a setter fails, its field is not assigned.
- Each method's `modifies` clause names only the fields it assigns, so every other field is provably unchanged.
- Dafny fields are readable, so each getter (`getSender`, `getRecipients`, `getRecipientVariables`, `getText`, `getUserReference`, `getDeliveryStart`, `getValidityPeriod`) is the field itself.
- The client methods `ExampleMessage`, `ExampleFields`, `ExampleRejectedValidityPeriod`, `ExampleRejectedDeliveryStart`, `ExampleRemoveRecipient`, `ExampleClearRecipientVariables` and `ExampleRemoveOrphanVariables` build messages that follow the documented usage. They use only the contracts to derive every getter's value.

Consequences of the code worth stating:
- Append-then-remove restores the list only when the value was not already listed: `array_search` finds the earlier copy and removes that one (`RemoveFirstUndoesAppend`, `RemoveFirstAfterAppendSameMultiset`, `RemoveFirstAfterAppendReorders`).
- `removeRecipient` deletes the value's `recipientVariables` entry even when the value is not in the list, so an orphan entry is dropped too (lib/DataStructure/Sms.php:131; `DataStructure.Sms.RemoveRecipient`).
- Neither the source nor the model validates recipient or variable arguments.

## Model

| member | source | states |
|---|---|---|
| `ResponseCodes.ToCode` | lib/Constant/ResponseCodes.php:15-176 | every constant's value is an assigned code (`IsAssigned`): it lies in 10..41 and not in the gaps 13..19 and 28 |
| `ResponseCodes.FromCode` | lib/Constant/ResponseCodes.php:15-176 | total decoder: when it returns a constant, that constant's value is the decoded integer |
| `ResponseCodes.FromCodeDefined` | lib/Constant/ResponseCodes.php:15-176 | an integer decodes to a constant exactly when it is assigned (the predicate `IsAssigned`: 10..41 without the gaps 13..19 and 28) |
| `ResponseCodes.FromCodeToCode` | lib/Constant/ResponseCodes.php:15-176 | round trip: decoding a constant's value yields that constant |
| `ResponseCodes.ToCodeInjective` | lib/Constant/ResponseCodes.php:15-176 | two constants have the same value iff they are the same constant |
| `ResponseCodes.AllCodesComplete` | lib/Constant/ResponseCodes.php:15-176 | the declaration-order list has 24 entries and contains every constant |
| `ResponseCodes.CodesIncreasing` | lib/Constant/ResponseCodes.php:15-176 | in declaration order each value exceeds the previous one; the first is 10 (GENERIC_ERROR) and the last 41 (ALPHA_NUMERIC_SENDER_ALREADY_REGISTERED) |
| `ResponseCodes.AllCodesDistinct` | lib/Constant/ResponseCodes.php:15-176 | the 24 listed constants are pairwise distinct |
| `ResponseCodes.UnassignedCodes` | lib/Constant/ResponseCodes.php:29-92 | 13..19, 28 and every integer outside 10..41 decode to None, without failing |
| `ResponseCodes.Anchors` | lib/Constant/ResponseCodes.php:15-176 | GENERIC_ERROR = 10, INSUFFICIENT_CREDIT = 30 (and 30 decodes to it), INVALID_DELIVERY_START_PARAM = 32, INVALID_VALIDITY_PERIOD = 34, the last code is 41, and 9999 decodes to None |
| `DataStructure.IndexOf` | lib/DataStructure/Sms.php:125 | the search for a recipient fails iff it is absent; otherwise it returns an index holding the recipient with no equal element before it |
| `DataStructure.RemoveFirst` | lib/DataStructure/Sms.php:125-129 | an absent recipient leaves the list unchanged; a present one loses exactly its first occurrence, with the rest in their original order; the multiset drops one copy |
| `DataStructure.RemoveFirstUndoesAppend` | lib/DataStructure/Sms.php:111-129 | appending a recipient not yet listed and then removing it restores the list |
| `DataStructure.RemoveFirstAfterAppendSameMultiset` | lib/DataStructure/Sms.php:111-129 | append-then-remove always restores the multiset of recipients |
| `DataStructure.RemoveFirstAfterAppendReorders` | lib/DataStructure/Sms.php:111-129 | when the recipient was already listed, append-then-remove reorders: ["a","b"] becomes ["b","a"] |
| `DataStructure.WithVariable` | lib/DataStructure/Sms.php:174-178 | the recipient's inner map is created if missing; afterwards it holds the name with the value; other names of that recipient and all other recipients are unchanged |
| `DataStructure.WithoutVariable` | lib/DataStructure/Sms.php:191 | the outer keys stay the same; only the name under that recipient is removed, even if the inner map becomes empty; an absent recipient or name changes nothing |
| `DataStructure.WithoutVariableUndoesWithVariable` | lib/DataStructure/Sms.php:172-194 | adding a fresh variable and removing it restores the map, except that a recipient that had no entry keeps an empty one |
| `DataStructure.DeliveryStartInPastMonotone` | lib/DataStructure/Sms.php:271 | a start rejected at one moment is rejected at every later one, and a start accepted now was accepted at every earlier moment |
| `DataStructure.DeliveryStartBoundary` | lib/DataStructure/Sms.php:271 | a start equal to now and an absent start are accepted; one second earlier is rejected |
| `DataStructure.ValidityBoundsMatchGateway` | lib/Constant/ResponseCodes.php:122-127 | the minutes the local setter accepts are exactly 5..2880, the range documented for code 34; this holds by construction, because the `ValidityPeriods` bounds are not part of this model and their values are taken from that doc comment |
| `DataStructure.ValidityPeriodBoundary` | lib/DataStructure/Sms.php:297-298 | 5 and 2880 minutes and an absent period are accepted; 4 and 2881 are rejected |
| `DataStructure.Sms.constructor` | lib/DataStructure/Sms.php:52-56 | a new message has no recipients and no variables, so both `has` queries are false; all other fields are unset |
| `DataStructure.Sms.SetSender` | lib/DataStructure/Sms.php:79-84 | the sender is assigned unconditionally and nothing else changes |
| `DataStructure.Sms.SetRecipients` | lib/DataStructure/Sms.php:99-104 | the whole list is replaced and nothing else changes |
| `DataStructure.Sms.AddRecipient` | lib/DataStructure/Sms.php:111-116 | the list becomes the old list plus the recipient at the end, duplicates allowed; nothing else changes |
| `DataStructure.Sms.RemoveRecipient` | lib/DataStructure/Sms.php:123-134 | the list loses its first equal element (see RemoveFirst); the recipient's variables are removed whether or not it was listed |
| `DataStructure.Sms.HasRecipients` | lib/DataStructure/Sms.php:139-142 | true iff at least one recipient is listed |
| `DataStructure.Sms.SetRecipientVariables` | lib/DataStructure/Sms.php:158-163 | only the recipient's inner map is replaced; the outer keys gain that recipient; other recipients are unchanged |
| `DataStructure.Sms.AddRecipientVariable` | lib/DataStructure/Sms.php:172-181 | the new variable map is WithVariable of the old one, so the map is non-empty afterwards |
| `DataStructure.Sms.RemoveRecipientVariable` | lib/DataStructure/Sms.php:189-194 | the new variable map is WithoutVariable of the old one, so `hasRecipientVariables` does not change |
| `DataStructure.Sms.HasRecipientVariables` | lib/DataStructure/Sms.php:199-202 | true iff some recipient has an entry, even an empty one |
| `DataStructure.Sms.ClearRecipientVariables` | lib/DataStructure/Sms.php:207-212 | the variable map becomes empty; the recipient list is not touched |
| `DataStructure.Sms.SetText` | lib/DataStructure/Sms.php:227-232 | the text is assigned unconditionally and nothing else changes |
| `DataStructure.Sms.SetUserReference` | lib/DataStructure/Sms.php:247-252 | the user reference is assigned unconditionally and nothing else changes |
| `DataStructure.Sms.SetDeliveryStart` | lib/DataStructure/Sms.php:269-278 | fails with InvalidDeliveryStart iff a start is given and lies strictly before now (the predicate `DeliveryStartInPast`, the guard at line 271); on failure the field keeps its old value; on success it holds the given start, `None` included |
| `DataStructure.Sms.SetValidityPeriod` | lib/DataStructure/Sms.php:295-306 | fails with InvalidValidityPeriod iff a period is given whose minutes lie outside [5, 2880] (the predicates `RejectsValidityPeriod` and `ValidMinutes`, the guard at lines 297-298); on failure the old value is kept; on success the field holds the given period, `None` included |

## Left out

- `DataStructure.Sms.SetDeliveryStart`: compares whole seconds. The source compares a `\DateTime`, which may carry microseconds, against now truncated to the second. A start a fraction of a second in the past can therefore pass in the source. Time zones and the rest of `\DateTime` are not modelled. The ambient `time()` call is the parameter `now`.
- `DataStructure.Sms.SetDeliveryStart`: the field is a value here. The source stores the caller's mutable `\DateTime` object itself (Sms.php:275), and `getDeliveryStart` returns that same object (Sms.php:259). A caller can therefore move a validated start into the past afterwards, for example with `modify('-1 day')`, and no check runs. In the source, "validated at assignment" does not hold after the assignment; the model does not capture this aliasing.
- `DataStructure.Sms.SetValidityPeriod`: the field is a value here. The source stores the caller's mutable `\DateInterval` object (Sms.php:303), and `getValidityPeriod` returns it (Sms.php:285). A caller can later set its public `i` field out of bounds, and no check runs; the model does not capture this aliasing.
- `DataStructure.Sms.SetValidityPeriod`: receives only the minutes component (`DateInterval::$i`), as the check at lib/DataStructure/Sms.php:298 reads it. The hours, days and other components are not modelled. So the model does not show that the source rejects a one-hour interval written as `PT1H` (its minutes are 0), or that it accepts `PT2H5M`.
- `DataStructure.RemoveFirst`: uses string equality. PHP's `array_search` compares loosely, so two different numeric strings such as `"+39123"` and `"39123"` can match in the source.
- `DataStructure.Sms.RemoveRecipient`: the list is re-packed after removal. PHP's `unset` leaves a gap in the array's integer keys, so `getRecipients` can return an array whose keys are not contiguous. PHP's conversion of numeric-string keys of `recipientVariables` to integers is not modelled either.
- The string setters take a `string`. Passing `null` to them, which untyped PHP allows, is not modelled.
- The getters have no separate members, because each one returns its field unchanged and the fields are readable.
- The static `create()` factory and the fluent `return $this` are not modelled. They have no behaviour beyond the constructor and the assignment.
- The exception classes, and the `ValidityPeriods` constants class, are not part of this model. The bound values 5 and 2880 come from the gateway's documentation of code 34.
- Concurrent mutation is not modelled. The source has none.
