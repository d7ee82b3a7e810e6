/**
  The `ErrorCode` taxonomy of libindy's C API (`libindy/src/api/mod.rs`).

  `ErrorCode` is a closed `#[repr(i32)]` enum with explicit discriminants,
  grouped into numeric bands, one per subsystem. Every foreign-callable entry
  point that reports a result returns one of these values by value, so the
  numbers are a wire contract. The tables (`Code`, `BandOf`, `InvalidParam`,
  `ParamPosition`, `FromCode`) are plain functions; what they promise is
  stated in their contracts and in the lemmas next to them.
 */
module ErrorCodes {
  import opened CTypes

  datatype ErrorCode =
    | Success
      // Common errors (100-129)
    | CommonInvalidParam1
    | CommonInvalidParam2
    | CommonInvalidParam3
    | CommonInvalidParam4
    | CommonInvalidParam5
    | CommonInvalidParam6
    | CommonInvalidParam7
    | CommonInvalidParam8
    | CommonInvalidParam9
    | CommonInvalidParam10
    | CommonInvalidParam11
    | CommonInvalidParam12
    | CommonInvalidState
    | CommonInvalidStructure
    | CommonIOError
    | CommonInvalidParam13
    | CommonInvalidParam14
    | CommonInvalidParam15
    | CommonInvalidParam16
    | CommonInvalidParam17
    | CommonInvalidParam18
    | CommonInvalidParam19
    | CommonInvalidParam20
    | CommonInvalidParam21
    | CommonInvalidParam22
    | CommonInvalidParam23
    | CommonInvalidParam24
    | CommonInvalidParam25
    | CommonInvalidParam26
    | CommonInvalidParam27
      // Wallet errors (200-214)
    | WalletInvalidHandle
    | WalletUnknownTypeError
    | WalletTypeAlreadyRegisteredError
    | WalletAlreadyExistsError
    | WalletNotFoundError
    | WalletIncompatiblePoolError
    | WalletAlreadyOpenedError
    | WalletAccessFailed
    | WalletInputError
    | WalletDecodingError
    | WalletStorageError
    | WalletEncryptionError
    | WalletItemNotFound
    | WalletItemAlreadyExists
    | WalletQueryError
      // Pool and ledger errors (300-309)
    | PoolLedgerNotCreatedError
    | PoolLedgerInvalidPoolHandle
    | PoolLedgerTerminated
    | LedgerNoConsensusError
    | LedgerInvalidTransaction
    | LedgerSecurityError
    | PoolLedgerConfigAlreadyExistsError
    | PoolLedgerTimeout
    | PoolIncompatibleProtocolVersion
    | LedgerNotFound
      // Anoncreds errors (400-407; 402 and 403 unassigned)
    | AnoncredsRevocationRegistryFullError
    | AnoncredsInvalidUserRevocId
    | AnoncredsMasterSecretDuplicateNameError
    | AnoncredsProofRejected
    | AnoncredsCredentialRevoked
    | AnoncredsCredDefAlreadyExistsError
      // Crypto errors (500)
    | UnknownCryptoTypeError
      // DID errors (600)
    | DidAlreadyExistsError
      // Payment errors (700-706)
    | PaymentUnknownMethodError
    | PaymentIncompatibleMethodsError
    | PaymentInsufficientFundsError
    | PaymentSourceDoesNotExistError
    | PaymentOperationNotSupportedError
    | PaymentExtraFundsError
    | TransactionNotAllowedError

  /** The discriminant of each variant, as fixed by the enum declaration. */
  function Code(e: ErrorCode): (r: i32)
    ensures FromCode(r) == Some(e)
  {
    match e
    case Success => 0
    case CommonInvalidParam1 => 100
    case CommonInvalidParam2 => 101
    case CommonInvalidParam3 => 102
    case CommonInvalidParam4 => 103
    case CommonInvalidParam5 => 104
    case CommonInvalidParam6 => 105
    case CommonInvalidParam7 => 106
    case CommonInvalidParam8 => 107
    case CommonInvalidParam9 => 108
    case CommonInvalidParam10 => 109
    case CommonInvalidParam11 => 110
    case CommonInvalidParam12 => 111
    case CommonInvalidState => 112
    case CommonInvalidStructure => 113
    case CommonIOError => 114
    case CommonInvalidParam13 => 115
    case CommonInvalidParam14 => 116
    case CommonInvalidParam15 => 117
    case CommonInvalidParam16 => 118
    case CommonInvalidParam17 => 119
    case CommonInvalidParam18 => 120
    case CommonInvalidParam19 => 121
    case CommonInvalidParam20 => 122
    case CommonInvalidParam21 => 123
    case CommonInvalidParam22 => 124
    case CommonInvalidParam23 => 125
    case CommonInvalidParam24 => 126
    case CommonInvalidParam25 => 127
    case CommonInvalidParam26 => 128
    case CommonInvalidParam27 => 129
    case WalletInvalidHandle => 200
    case WalletUnknownTypeError => 201
    case WalletTypeAlreadyRegisteredError => 202
    case WalletAlreadyExistsError => 203
    case WalletNotFoundError => 204
    case WalletIncompatiblePoolError => 205
    case WalletAlreadyOpenedError => 206
    case WalletAccessFailed => 207
    case WalletInputError => 208
    case WalletDecodingError => 209
    case WalletStorageError => 210
    case WalletEncryptionError => 211
    case WalletItemNotFound => 212
    case WalletItemAlreadyExists => 213
    case WalletQueryError => 214
    case PoolLedgerNotCreatedError => 300
    case PoolLedgerInvalidPoolHandle => 301
    case PoolLedgerTerminated => 302
    case LedgerNoConsensusError => 303
    case LedgerInvalidTransaction => 304
    case LedgerSecurityError => 305
    case PoolLedgerConfigAlreadyExistsError => 306
    case PoolLedgerTimeout => 307
    case PoolIncompatibleProtocolVersion => 308
    case LedgerNotFound => 309
    case AnoncredsRevocationRegistryFullError => 400
    case AnoncredsInvalidUserRevocId => 401
    case AnoncredsMasterSecretDuplicateNameError => 404
    case AnoncredsProofRejected => 405
    case AnoncredsCredentialRevoked => 406
    case AnoncredsCredDefAlreadyExistsError => 407
    case UnknownCryptoTypeError => 500
    case DidAlreadyExistsError => 600
    case PaymentUnknownMethodError => 700
    case PaymentIncompatibleMethodsError => 701
    case PaymentInsufficientFundsError => 702
    case PaymentSourceDoesNotExistError => 703
    case PaymentOperationNotSupportedError => 704
    case PaymentExtraFundsError => 705
    case TransactionNotAllowedError => 706
  }

  /** `Success` alone is 0; every failure lies between 100 and 706. */
  lemma CodeRange(e: ErrorCode)
    ensures Code(e) == 0 <==> e == Success
    ensures e != Success ==> 100 <= Code(e) <= 706
  {
  }

  // ---------------------------------------------------------------------
  // Positional "invalid parameter" codes

  /**
    The variant that reports an invalid `n`-th argument of an entry point
    (`CommonInvalidParamN`), for the 27 positions the taxonomy supports.
   */
  function InvalidParam(n: int): (r: ErrorCode)
    requires 1 <= n <= 27
  {
    match n
    case 1 => CommonInvalidParam1
    case 2 => CommonInvalidParam2
    case 3 => CommonInvalidParam3
    case 4 => CommonInvalidParam4
    case 5 => CommonInvalidParam5
    case 6 => CommonInvalidParam6
    case 7 => CommonInvalidParam7
    case 8 => CommonInvalidParam8
    case 9 => CommonInvalidParam9
    case 10 => CommonInvalidParam10
    case 11 => CommonInvalidParam11
    case 12 => CommonInvalidParam12
    case 13 => CommonInvalidParam13
    case 14 => CommonInvalidParam14
    case 15 => CommonInvalidParam15
    case 16 => CommonInvalidParam16
    case 17 => CommonInvalidParam17
    case 18 => CommonInvalidParam18
    case 19 => CommonInvalidParam19
    case 20 => CommonInvalidParam20
    case 21 => CommonInvalidParam21
    case 22 => CommonInvalidParam22
    case 23 => CommonInvalidParam23
    case 24 => CommonInvalidParam24
    case 25 => CommonInvalidParam25
    case 26 => CommonInvalidParam26
    case _ => CommonInvalidParam27
  }

  /**
    Positions 1-12 take 100-111 and positions 13-27 take 115-129: the
    numbering skips the three values 112-114.
   */
  lemma InvalidParamCode(n: int)
    requires 1 <= n <= 27
    ensures Code(InvalidParam(n)) as int == if n <= 12 then 99 + n else 102 + n
  {
  }

  /**
    The argument position a `CommonInvalidParamN` variant names; `None` for
    every other variant. `InvalidParam` inverts it.
   */
  function ParamPosition(e: ErrorCode): (r: Option<int>)
    ensures r.Some? ==> 1 <= r.value <= 27 && InvalidParam(r.value) == e
  {
    match e
    case CommonInvalidParam1 => Some(1)
    case CommonInvalidParam2 => Some(2)
    case CommonInvalidParam3 => Some(3)
    case CommonInvalidParam4 => Some(4)
    case CommonInvalidParam5 => Some(5)
    case CommonInvalidParam6 => Some(6)
    case CommonInvalidParam7 => Some(7)
    case CommonInvalidParam8 => Some(8)
    case CommonInvalidParam9 => Some(9)
    case CommonInvalidParam10 => Some(10)
    case CommonInvalidParam11 => Some(11)
    case CommonInvalidParam12 => Some(12)
    case CommonInvalidParam13 => Some(13)
    case CommonInvalidParam14 => Some(14)
    case CommonInvalidParam15 => Some(15)
    case CommonInvalidParam16 => Some(16)
    case CommonInvalidParam17 => Some(17)
    case CommonInvalidParam18 => Some(18)
    case CommonInvalidParam19 => Some(19)
    case CommonInvalidParam20 => Some(20)
    case CommonInvalidParam21 => Some(21)
    case CommonInvalidParam22 => Some(22)
    case CommonInvalidParam23 => Some(23)
    case CommonInvalidParam24 => Some(24)
    case CommonInvalidParam25 => Some(25)
    case CommonInvalidParam26 => Some(26)
    case CommonInvalidParam27 => Some(27)
    case _ => None
  }

  /** `ParamPosition` inverts `InvalidParam`. */
  lemma InvalidParamPosition(n: int)
    requires 1 <= n <= 27
    ensures ParamPosition(InvalidParam(n)) == Some(n)
  {
  }

  /** Positional codes strictly increase with the position. */
  lemma {:induction false} InvalidParamIncreasing(n: int, m: int)
    requires 1 <= n < m <= 27
    ensures Code(InvalidParam(n)) < Code(InvalidParam(m))
  {
    InvalidParamCode(n);
    InvalidParamCode(m);
  }

  /**
    A variant is positional exactly when its value lies in the common band
    but is not one of 112, 113 and 114.
   */
  lemma PositionalIff(e: ErrorCode)
    ensures ParamPosition(e).Some? <==> 100 <= Code(e) <= 129 && !(112 <= Code(e) <= 114)
  {
    if ParamPosition(e).Some? {
      InvalidParamCode(ParamPosition(e).value);
    }
  }

  /** Values 112-114 belong to the three non-positional common variants. */
  lemma CommonGap()
    ensures FromCode(112) == Some(CommonInvalidState)
    ensures FromCode(113) == Some(CommonInvalidStructure)
    ensures FromCode(114) == Some(CommonIOError)
    ensures ParamPosition(CommonInvalidState).None?
    ensures ParamPosition(CommonInvalidStructure).None?
    ensures ParamPosition(CommonIOError).None?
  {
  }

  // ---------------------------------------------------------------------
  // Decoding wire values

  /** The variant whose discriminant is `c`, if any: the decoder of wire values. */
  function FromCode(c: i32): (r: Option<ErrorCode>)
  {
    if c == 0 then Some(Success)
    else if 100 <= c <= 129 then FromCommonCode(c)
    else if 200 <= c <= 214 then FromWalletCode(c)
    else if 300 <= c <= 309 then FromLedgerCode(c)
    else if 400 <= c <= 407 then FromAnoncredsCode(c)
    else if c == 500 then Some(UnknownCryptoTypeError)
    else if c == 600 then Some(DidAlreadyExistsError)
    else if 700 <= c <= 706 then FromPaymentCode(c)
    else None
  }

  /**
    Decoder for the common band, through the positional numbering: 112-114
    are the three non-positional variants and every other value is a position.
   */
  function FromCommonCode(c: i32): (r: Option<ErrorCode>)
    requires 100 <= c <= 129
  {
    if c <= 111 then Some(InvalidParam(c as int - 99))
    else if c == 112 then Some(CommonInvalidState)
    else if c == 113 then Some(CommonInvalidStructure)
    else if c == 114 then Some(CommonIOError)
    else Some(InvalidParam(c as int - 102))
  }

  lemma FromCommonCodeSound(c: i32, e: ErrorCode)
    requires 100 <= c <= 129 && FromCommonCode(c) == Some(e)
    ensures Code(e) == c
  {
    if c <= 111 {
      InvalidParamCode(c as int - 99);
    } else if c >= 115 {
      InvalidParamCode(c as int - 102);
    }
  }

  /** Decoder for the wallet band; every value of 200-214 is assigned. */
  function FromWalletCode(c: i32): (r: Option<ErrorCode>)
    requires 200 <= c <= 214
  {
    match c
    case 200 => Some(WalletInvalidHandle)
    case 201 => Some(WalletUnknownTypeError)
    case 202 => Some(WalletTypeAlreadyRegisteredError)
    case 203 => Some(WalletAlreadyExistsError)
    case 204 => Some(WalletNotFoundError)
    case 205 => Some(WalletIncompatiblePoolError)
    case 206 => Some(WalletAlreadyOpenedError)
    case 207 => Some(WalletAccessFailed)
    case 208 => Some(WalletInputError)
    case 209 => Some(WalletDecodingError)
    case 210 => Some(WalletStorageError)
    case 211 => Some(WalletEncryptionError)
    case 212 => Some(WalletItemNotFound)
    case 213 => Some(WalletItemAlreadyExists)
    case _ => Some(WalletQueryError)
  }

  /** The wallet table is checked one half at a time. */
  lemma FromWalletCodeSound(c: i32, e: ErrorCode)
    requires 200 <= c <= 214 && FromWalletCode(c) == Some(e)
    ensures Code(e) == c
  {
    if c <= 207 {
      WalletLowSound(c, e);
    } else {
      WalletHighSound(c, e);
    }
  }

  lemma WalletLowSound(c: i32, e: ErrorCode)
    requires 200 <= c <= 207 && FromWalletCode(c) == Some(e)
    ensures Code(e) == c
  {
  }

  lemma WalletHighSound(c: i32, e: ErrorCode)
    requires 208 <= c <= 214 && FromWalletCode(c) == Some(e)
    ensures Code(e) == c
  {
  }

  /** Decoder for the pool/ledger band; every value of 300-309 is assigned. */
  function FromLedgerCode(c: i32): (r: Option<ErrorCode>)
    requires 300 <= c <= 309
  {
    match c
    case 300 => Some(PoolLedgerNotCreatedError)
    case 301 => Some(PoolLedgerInvalidPoolHandle)
    case 302 => Some(PoolLedgerTerminated)
    case 303 => Some(LedgerNoConsensusError)
    case 304 => Some(LedgerInvalidTransaction)
    case 305 => Some(LedgerSecurityError)
    case 306 => Some(PoolLedgerConfigAlreadyExistsError)
    case 307 => Some(PoolLedgerTimeout)
    case 308 => Some(PoolIncompatibleProtocolVersion)
    case _ => Some(LedgerNotFound)
  }

  lemma FromLedgerCodeSound(c: i32, e: ErrorCode)
    requires 300 <= c <= 309 && FromLedgerCode(c) == Some(e)
    ensures Code(e) == c
  {
  }

  /** Decoder for the anoncreds band; 402 and 403 are not assigned. */
  function FromAnoncredsCode(c: i32): (r: Option<ErrorCode>)
    requires 400 <= c <= 407
  {
    match c
    case 400 => Some(AnoncredsRevocationRegistryFullError)
    case 401 => Some(AnoncredsInvalidUserRevocId)
    case 404 => Some(AnoncredsMasterSecretDuplicateNameError)
    case 405 => Some(AnoncredsProofRejected)
    case 406 => Some(AnoncredsCredentialRevoked)
    case 407 => Some(AnoncredsCredDefAlreadyExistsError)
    case _ => None
  }

  lemma FromAnoncredsCodeSound(c: i32, e: ErrorCode)
    requires 400 <= c <= 407 && FromAnoncredsCode(c) == Some(e)
    ensures Code(e) == c
  {
  }

  /** Decoder for the payment band; every value of 700-706 is assigned. */
  function FromPaymentCode(c: i32): (r: Option<ErrorCode>)
    requires 700 <= c <= 706
  {
    match c
    case 700 => Some(PaymentUnknownMethodError)
    case 701 => Some(PaymentIncompatibleMethodsError)
    case 702 => Some(PaymentInsufficientFundsError)
    case 703 => Some(PaymentSourceDoesNotExistError)
    case 704 => Some(PaymentOperationNotSupportedError)
    case 705 => Some(PaymentExtraFundsError)
    case _ => Some(TransactionNotAllowedError)
  }

  lemma FromPaymentCodeSound(c: i32, e: ErrorCode)
    requires 700 <= c <= 706 && FromPaymentCode(c) == Some(e)
    ensures Code(e) == c
  {
  }

  /** Whatever `FromCode` decodes carries the value it was decoded from. */
  lemma FromCodeSound(c: i32, e: ErrorCode)
    requires FromCode(c) == Some(e)
    ensures Code(e) == c
  {
    if 100 <= c <= 129 {
      FromCommonCodeSound(c, e);
    } else if 200 <= c <= 214 {
      FromWalletCodeSound(c, e);
    } else if 300 <= c <= 309 {
      FromLedgerCodeSound(c, e);
    } else if 400 <= c <= 407 {
      FromAnoncredsCodeSound(c, e);
    } else if 700 <= c <= 706 {
      FromPaymentCodeSound(c, e);
    }
  }

  /** A wire value that some variant carries. */
  predicate Assigned(c: i32) {
    FromCode(c).Some?
  }

  /** Two variants are equal exactly when their discriminants are. */
  lemma CodeInjective(a: ErrorCode, b: ErrorCode)
    ensures Code(a) == Code(b) <==> a == b
  {
    if Code(a) == Code(b) {
      assert Some(a) == FromCode(Code(a)) == FromCode(Code(b)) == Some(b);
    }
  }

  /** The decoder answers for exactly the values some variant carries. */
  lemma AssignedIff(c: i32)
    ensures Assigned(c) <==> exists e :: Code(e) == c
  {
    if Assigned(c) {
      FromCodeSound(c, FromCode(c).value);
    }
    if exists e :: Code(e) == c {
      var e :| Code(e) == c;
      assert FromCode(c) == Some(e);
    }
  }

  // ---------------------------------------------------------------------
  // Bands

  /** The subsystem bands of the taxonomy; `SuccessBand` holds `Success` alone. */
  datatype Band = SuccessBand | Common | Wallet | Ledger | Anoncreds | Crypto | Did | Payment
  {
    /** Lowest value reserved for the band. */
    function Lo(): int {
      match this
      case SuccessBand => 0
      case Common => 100
      case Wallet => 200
      case Ledger => 300
      case Anoncreds => 400
      case Crypto => 500
      case Did => 600
      case Payment => 700
    }

    /** Highest value reserved for the band. */
    function Hi(): int {
      match this
      case SuccessBand => 0
      case Common => 129
      case Wallet => 214
      case Ledger => 309
      case Anoncreds => 407
      case Crypto => 500
      case Did => 600
      case Payment => 706
    }
  }

  predicate InBand(b: Band, c: int) {
    b.Lo() <= c <= b.Hi()
  }

  /**
    The band under which each variant is declared. Every variant's value lies
    in the range reserved for its band.
   */
  function BandOf(e: ErrorCode): (r: Band)
    ensures InBand(r, Code(e) as int)
  {
    match e
    case Success => SuccessBand
    case CommonInvalidParam1 => Common
    case CommonInvalidParam2 => Common
    case CommonInvalidParam3 => Common
    case CommonInvalidParam4 => Common
    case CommonInvalidParam5 => Common
    case CommonInvalidParam6 => Common
    case CommonInvalidParam7 => Common
    case CommonInvalidParam8 => Common
    case CommonInvalidParam9 => Common
    case CommonInvalidParam10 => Common
    case CommonInvalidParam11 => Common
    case CommonInvalidParam12 => Common
    case CommonInvalidState => Common
    case CommonInvalidStructure => Common
    case CommonIOError => Common
    case CommonInvalidParam13 => Common
    case CommonInvalidParam14 => Common
    case CommonInvalidParam15 => Common
    case CommonInvalidParam16 => Common
    case CommonInvalidParam17 => Common
    case CommonInvalidParam18 => Common
    case CommonInvalidParam19 => Common
    case CommonInvalidParam20 => Common
    case CommonInvalidParam21 => Common
    case CommonInvalidParam22 => Common
    case CommonInvalidParam23 => Common
    case CommonInvalidParam24 => Common
    case CommonInvalidParam25 => Common
    case CommonInvalidParam26 => Common
    case CommonInvalidParam27 => Common
    case WalletInvalidHandle => Wallet
    case WalletUnknownTypeError => Wallet
    case WalletTypeAlreadyRegisteredError => Wallet
    case WalletAlreadyExistsError => Wallet
    case WalletNotFoundError => Wallet
    case WalletIncompatiblePoolError => Wallet
    case WalletAlreadyOpenedError => Wallet
    case WalletAccessFailed => Wallet
    case WalletInputError => Wallet
    case WalletDecodingError => Wallet
    case WalletStorageError => Wallet
    case WalletEncryptionError => Wallet
    case WalletItemNotFound => Wallet
    case WalletItemAlreadyExists => Wallet
    case WalletQueryError => Wallet
    case PoolLedgerNotCreatedError => Ledger
    case PoolLedgerInvalidPoolHandle => Ledger
    case PoolLedgerTerminated => Ledger
    case LedgerNoConsensusError => Ledger
    case LedgerInvalidTransaction => Ledger
    case LedgerSecurityError => Ledger
    case PoolLedgerConfigAlreadyExistsError => Ledger
    case PoolLedgerTimeout => Ledger
    case PoolIncompatibleProtocolVersion => Ledger
    case LedgerNotFound => Ledger
    case AnoncredsRevocationRegistryFullError => Anoncreds
    case AnoncredsInvalidUserRevocId => Anoncreds
    case AnoncredsMasterSecretDuplicateNameError => Anoncreds
    case AnoncredsProofRejected => Anoncreds
    case AnoncredsCredentialRevoked => Anoncreds
    case AnoncredsCredDefAlreadyExistsError => Anoncreds
    case UnknownCryptoTypeError => Crypto
    case DidAlreadyExistsError => Did
    case PaymentUnknownMethodError => Payment
    case PaymentIncompatibleMethodsError => Payment
    case PaymentInsufficientFundsError => Payment
    case PaymentSourceDoesNotExistError => Payment
    case PaymentOperationNotSupportedError => Payment
    case PaymentExtraFundsError => Payment
    case TransactionNotAllowedError => Payment
  }

  /** Classifier on raw values: the band whose reserved range holds `c`. */
  function BandOfValue(c: int): (r: Option<Band>)
    ensures forall b :: r == Some(b) <==> InBand(b, c)
  {
    if c == 0 then Some(SuccessBand)
    else if 100 <= c <= 129 then Some(Common)
    else if 200 <= c <= 214 then Some(Wallet)
    else if 300 <= c <= 309 then Some(Ledger)
    else if 400 <= c <= 407 then Some(Anoncreds)
    else if c == 500 then Some(Crypto)
    else if c == 600 then Some(Did)
    else if 700 <= c <= 706 then Some(Payment)
    else None
  }

  /** The reserved ranges do not overlap. */
  lemma BandsDisjoint(b1: Band, b2: Band, c: int)
    requires InBand(b1, c) && InBand(b2, c)
    ensures b1 == b2
  {
    assert BandOfValue(c) == Some(b1);
  }

  /** A variant's value lies in a band's range exactly when it is declared in that band. */
  lemma BandMembership(e: ErrorCode, b: Band)
    ensures BandOf(e) == b <==> InBand(b, Code(e) as int)
  {
    if InBand(b, Code(e) as int) {
      BandsDisjoint(b, BandOf(e), Code(e) as int);
    }
  }

  /** Classifying a variant's value gives the band it is declared in. */
  lemma BandOfCode(e: ErrorCode)
    ensures BandOfValue(Code(e) as int) == Some(BandOf(e))
  {
  }

  /**
    Every value inside a band's range is assigned, except 402 and 403 in the
    anoncreds band; no value outside the bands is assigned.
   */
  lemma BandsAreFilled(c: i32)
    ensures Assigned(c) <==> BandOfValue(c as int).Some? && c != 402 && c != 403
  {
  }

  /** The single-value bands hold exactly one variant each. */
  lemma SingletonBands(e: ErrorCode)
    ensures BandOf(e) == SuccessBand <==> e == Success
    ensures BandOf(e) == Crypto <==> e == UnknownCryptoTypeError
    ensures BandOf(e) == Did <==> e == DidAlreadyExistsError
  {
  }
}
