/**
 * The error codes the SMS gateway returns (class `ResponseCodes`): a closed
 * set of 24 named integer constants, here one constructor per constant,
 * with the encoding `ToCode` and its partial inverse `FromCode`.
 */
module ResponseCodes {
  import opened Wrappers

  datatype ResponseCode =
    | GenericError                                   // 10
    | InvalidCharset                                 // 11
    | MissingMandatoryParam                          // 12
    | InvalidParameters                              // 20
    | InvalidUsernameOrPassword                      // 21
    | InvalidSender                                  // 22
    | SenderLengthTooLong                            // 23
    | TextTooLong                                    // 24
    | InvalidRecipient                               // 25
    | MissingSender                                  // 26
    | TooManyRecipients                              // 27
    | AccountUnableToUseSmsGateway                   // 29
    | InsufficientCredit                             // 30
    | InvalidRequestMethod                           // 31
    | InvalidDeliveryStartParam                      // 32
    | InvalidEncodingScheme                          // 33
    | InvalidValidityPeriod                          // 34
    | InvalidUserReference                           // 35
    | MissingUserReference                           // 36
    | CharactersNotInCurrentCharset                  // 37
    | TooManyAliasWithSameVat                        // 38
    | InvalidVat                                     // 39
    | AlphaNumericSenderAllowedOnlyForBusinessPlans  // 40
    | AlphaNumericSenderAlreadyRegistered            // 41

  /** Smallest and largest value in the table. */
  const MinCode: int := 10
  const MaxCode: int := 41

  /** Integer values that name a response code: 10..41 except 13..19 and 28. */
  predicate IsAssigned(n: int) {
    MinCode <= n <= MaxCode && !(13 <= n <= 19) && n != 28
  }

  /** Every constructor, in the order the constants are declared. */
  const AllCodes: seq<ResponseCode> := [
    GenericError, InvalidCharset, MissingMandatoryParam, InvalidParameters,
    InvalidUsernameOrPassword, InvalidSender, SenderLengthTooLong, TextTooLong,
    InvalidRecipient, MissingSender, TooManyRecipients, AccountUnableToUseSmsGateway,
    InsufficientCredit, InvalidRequestMethod, InvalidDeliveryStartParam,
    InvalidEncodingScheme, InvalidValidityPeriod, InvalidUserReference,
    MissingUserReference, CharactersNotInCurrentCharset, TooManyAliasWithSameVat,
    InvalidVat, AlphaNumericSenderAllowedOnlyForBusinessPlans,
    AlphaNumericSenderAlreadyRegistered
  ]

  /** The integer value of a constant; every value is an assigned code. */
  function ToCode(c: ResponseCode): (n: int)
    ensures IsAssigned(n)
  {
    match c
    case GenericError => 10
    case InvalidCharset => 11
    case MissingMandatoryParam => 12
    case InvalidParameters => 20
    case InvalidUsernameOrPassword => 21
    case InvalidSender => 22
    case SenderLengthTooLong => 23
    case TextTooLong => 24
    case InvalidRecipient => 25
    case MissingSender => 26
    case TooManyRecipients => 27
    case AccountUnableToUseSmsGateway => 29
    case InsufficientCredit => 30
    case InvalidRequestMethod => 31
    case InvalidDeliveryStartParam => 32
    case InvalidEncodingScheme => 33
    case InvalidValidityPeriod => 34
    case InvalidUserReference => 35
    case MissingUserReference => 36
    case CharactersNotInCurrentCharset => 37
    case TooManyAliasWithSameVat => 38
    case InvalidVat => 39
    case AlphaNumericSenderAllowedOnlyForBusinessPlans => 40
    case AlphaNumericSenderAlreadyRegistered => 41
  }

  /**
   * Decodes a code read from a gateway response. Total: a value that names
   * no constant yields `None` rather than a failure.
   */
  function FromCode(n: int): (r: Option<ResponseCode>)
    ensures r.Some? ==> ToCode(r.value) == n
  {
    match n
    case 10 => Some(GenericError)
    case 11 => Some(InvalidCharset)
    case 12 => Some(MissingMandatoryParam)
    case 20 => Some(InvalidParameters)
    case 21 => Some(InvalidUsernameOrPassword)
    case 22 => Some(InvalidSender)
    case 23 => Some(SenderLengthTooLong)
    case 24 => Some(TextTooLong)
    case 25 => Some(InvalidRecipient)
    case 26 => Some(MissingSender)
    case 27 => Some(TooManyRecipients)
    case 29 => Some(AccountUnableToUseSmsGateway)
    case 30 => Some(InsufficientCredit)
    case 31 => Some(InvalidRequestMethod)
    case 32 => Some(InvalidDeliveryStartParam)
    case 33 => Some(InvalidEncodingScheme)
    case 34 => Some(InvalidValidityPeriod)
    case 35 => Some(InvalidUserReference)
    case 36 => Some(MissingUserReference)
    case 37 => Some(CharactersNotInCurrentCharset)
    case 38 => Some(TooManyAliasWithSameVat)
    case 39 => Some(InvalidVat)
    case 40 => Some(AlphaNumericSenderAllowedOnlyForBusinessPlans)
    case 41 => Some(AlphaNumericSenderAlreadyRegistered)
    case _ => None
  }

  /** Exactly the assigned values decode to a constant. */
  lemma FromCodeDefined(n: int)
    ensures FromCode(n).Some? <==> IsAssigned(n)
  {
  }

  /** Decoding the value of a constant gives back that constant. */
  lemma FromCodeToCode(c: ResponseCode)
    ensures FromCode(ToCode(c)) == Some(c)
  {
  }

  /** The 24 constants have pairwise distinct values. */
  lemma ToCodeInjective(a: ResponseCode, b: ResponseCode)
    ensures ToCode(a) == ToCode(b) <==> a == b
  {
  }

  /** `AllCodes` lists every constructor exactly once: 24 constants in all. */
  lemma AllCodesComplete(c: ResponseCode)
    ensures c in AllCodes
    ensures |AllCodes| == 24
  {
  }

  /** Values in the declaration order strictly increase, from 10 up to 41. */
  lemma CodesIncreasing()
    ensures ToCode(AllCodes[0]) == MinCode && ToCode(AllCodes[|AllCodes| - 1]) == MaxCode
    ensures forall i :: 0 <= i < |AllCodes| - 1 ==> ToCode(AllCodes[i]) < ToCode(AllCodes[i + 1])
  {
  }

  /** The 24 listed constants are pairwise distinct. */
  lemma AllCodesDistinct()
    ensures forall i, j :: 0 <= i < j < |AllCodes| ==> AllCodes[i] != AllCodes[j]
  {
    assert forall i, j :: 0 <= i < j < |AllCodes| ==> ToCode(AllCodes[i]) < ToCode(AllCodes[j]);
  }

  /**
   * The gaps in the table, and everything outside 10..41 (a future code such
   * as 9999, say), decode to `None`.
   */
  lemma UnassignedCodes(n: int)
    requires n < MinCode || n > MaxCode || 13 <= n <= 19 || n == 28
    ensures FromCode(n) == None
  {
  }

  /** A few values fixed by the table. */
  lemma Anchors()
    ensures ToCode(GenericError) == 10
    ensures ToCode(InsufficientCredit) == 30 && FromCode(30) == Some(InsufficientCredit)
    ensures ToCode(InvalidDeliveryStartParam) == 32
    ensures ToCode(InvalidValidityPeriod) == 34
    ensures ToCode(AlphaNumericSenderAlreadyRegistered) == 41
    ensures FromCode(9999) == None
  {
  }

  /**
   * The range of validity periods the gateway documents for code 34
   * (`5 <= validity_period <= 2880`).
   */
  predicate DocumentedValidityPeriod(minutes: int) {
    5 <= minutes <= 2880
  }
}
