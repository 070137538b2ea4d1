/**
 * Transactions as the service builds, serializes and recognizes them.
 *
 * The xrpl library is one record of unknown functions. Its laws are stated in `Lawful` and
 * carried by the type of the constant `xrpl`; nothing else about the library is known.
 */
module Transactions {
  import opened Wrappers

  datatype Field =
    | TransactionType | Account | Destination | Amount | DeliverMax | DestinationTag | LimitAmount
    | Flags | Fee | Sequence | LastLedgerSequence | NetworkID
    | SigningPubKey | TxnSignature | Hash
    | Signers | Sponsor | SponsorFlags | SponsorSignature | Delegate | TicketSequence | AccountTxnID
    | OtherField(name: string)

  datatype TxType = PaymentType | TrustSetType | OtherType(name: string)

  datatype Value =
    | Kind(kind: TxType)
    | Text(text: string)
    | Number(number: nat)
    | Issued(currency: string, issuer: string, amount: string)

  type Fields = map<Field, Value>

  function UpperChar(c: char): char {
    if 'a' <= c <= 'z' then (c as int - 32) as char else c
  }

  /** String.toUpperCase on the characters that occur in hexadecimal text. */
  function Upper(s: string): (u: string)
    ensures |u| == |s|
    ensures forall i :: 0 <= i < |s| ==> u[i] == if 'a' <= s[i] <= 'z' then (s[i] as int - 32) as char else s[i]
  {
    seq(|s|, i requires 0 <= i < |s| => UpperChar(s[i]))
  }

  lemma UpperTwice(s: string)
    ensures Upper(Upper(s)) == Upper(s)
  {
  }

  datatype RawLibrary = RawLibrary(
    encode: Fields -> Option<string>,                      // None: encode throws
    decode: string -> Option<Fields>,                      // None: decode throws
    hashSignedTx: string -> string,
    validate: Fields -> bool,                              // false: validate throws
    verifySignature: (Fields, string, string) -> bool,     // false also when it throws
    deriveAddress: string -> Option<string>                // None: deriveAddress throws
  )

  const HEADER_FIELDS: set<Field> := {Account, Sequence, LastLedgerSequence}

  /** Decoding a serialized transaction gives back the header fields it was built from. */
  ghost predicate KeepsHeader(f: Fields, back: Option<Fields>) {
    && back.Some?
    && forall key :: key in HEADER_FIELDS && key in f ==> key in back.value && back.value[key] == f[key]
  }

  /** What is assumed of the library: serialization keeps headers, hashes do not collide. */
  ghost predicate Lawful(lib: RawLibrary) {
    && (forall f: Fields {:trigger lib.encode(f)} ::
          lib.encode(f).Some? ==> KeepsHeader(f, lib.decode(Upper(lib.encode(f).value))))
    && (forall a: string, b: string {:trigger lib.hashSignedTx(a), lib.hashSignedTx(b)} ::
          a == Upper(a) && b == Upper(b) && Upper(lib.hashSignedTx(a)) == Upper(lib.hashSignedTx(b)) ==> a == b)
  }

  type Library = lib: RawLibrary | Lawful(lib)
    witness RawLibrary((f: Fields) => None, (s: string) => None, (s: string) => s, (f: Fields) => false,
                       (f: Fields, s: string, k: string) => false, (k: string) => None)

  /** The library in use: any lawful one. */
  const xrpl: Library

  /** The network the service is configured for; it never changes over the life of a table. */
  const configuredNetworkId: nat

  const LAST_LEDGER_OFFSET: nat := 20
  const NETWORK_ID_FIELD_THRESHOLD: nat := 1024
  const MAX_FEE_DROPS: nat := 1000

  // ---- codec -------------------------------------------------------------------------------

  /** DeliverMax becomes Amount on a Payment; None when both are present and differ. */
  function ToCanonicalForm(transaction: Fields): Option<Fields> {
    if !IsPayment(transaction) || DeliverMax !in transaction then
      Some(transaction)
    else
      var deliverMax := transaction[DeliverMax];
      var rest := transaction - {DeliverMax};
      if Amount in rest && rest[Amount] != deliverMax then None else Some(rest[Amount := deliverMax])
  }

  predicate IsPayment(transaction: Fields) {
    TransactionType in transaction && transaction[TransactionType] == Kind(PaymentType)
  }

  function EncodeTransaction(transaction: Fields): Option<string> {
    match ToCanonicalForm(transaction)
    case None => None
    case Some(canonical) =>
      match xrpl.encode(canonical)
      case None => None
      case Some(text) => Some(Upper(text))
  }

  predicate ValidTransaction(transaction: Fields) {
    var canonical := ToCanonicalForm(transaction);
    canonical.Some? && xrpl.validate(canonical.value)
  }

  // ---- builders ----------------------------------------------------------------------------

  datatype Sum = Xrp(drops: string) | IssuedCurrency(currency: string, issuer: string, value: string)

  datatype Payload =
    | Payment(account: string, destination: string, amount: Sum, destinationTag: Option<nat>)
    | TrustSet(account: string, currency: string, issuer: string, value: string)

  datatype Params = Params(fee: nat, sequence: nat, lastLedgerSequence: nat, networkId: nat)

  function LastLedgerSequenceFor(preparedLedgerIndex: nat): nat {
    preparedLedgerIndex + LAST_LEDGER_OFFSET
  }

  function NetworkIdField(networkId: nat): Fields {
    if networkId > NETWORK_ID_FIELD_THRESHOLD then map[NetworkID := Number(networkId)] else map[]
  }

  function AmountValue(amount: Sum): Value {
    match amount
    case Xrp(drops) => Text(drops)
    case IssuedCurrency(currency, issuer, value) => Issued(currency, issuer, value)
  }

  /** The fields that both builders set alike. */
  function CommonFields(account: string, params: Params): Fields {
    map[
      Account := Text(account),
      Flags := Number(0),
      Fee := Number(params.fee),
      Sequence := Number(params.sequence),
      LastLedgerSequence := Number(params.lastLedgerSequence)] + NetworkIdField(params.networkId)
  }

  function PaymentFields(destination: string, amount: Sum, destinationTag: Option<nat>): Fields {
    map[
      TransactionType := Kind(PaymentType),
      Destination := Text(destination),
      DeliverMax := AmountValue(amount)]
    + (match destinationTag case None => map[] case Some(tag) => map[DestinationTag := Number(tag)])
  }

  function TrustSetFields(currency: string, issuer: string, value: string): Fields {
    map[
      TransactionType := Kind(TrustSetType),
      LimitAmount := Issued(currency, issuer, value)]
  }

  function BuildTransaction(intent: Payload, params: Params): Fields {
    match intent
    case Payment(account, destination, amount, destinationTag) =>
      CommonFields(account, params) + PaymentFields(destination, amount, destinationTag)
    case TrustSet(account, currency, issuer, value) =>
      CommonFields(account, params) + TrustSetFields(currency, issuer, value)
  }

  // ---- what the fields of a transaction say ------------------------------------------------

  /**
   * The canonical form, field by field: only a Payment with DeliverMax changes, and it is refused
   * exactly when it already has another Amount.
   */
  lemma CanonicalFormExactly(f: Fields)
    ensures var canonical := ToCanonicalForm(f);
      if TransactionType in f && f[TransactionType] == Kind(PaymentType) && DeliverMax in f then
        && (canonical.None? <==> Amount in f && f[Amount] != f[DeliverMax])
        && (canonical.Some? ==>
              && canonical.value.Keys == f.Keys - {DeliverMax} + {Amount}
              && canonical.value[Amount] == f[DeliverMax]
              && forall field | field in f && field != DeliverMax && field != Amount :: canonical.value[field] == f[field])
      else
        canonical == Some(f)
  {
    var canonical := ToCanonicalForm(f);
    if canonical.Some? && DeliverMax in f && TransactionType in f && f[TransactionType] == Kind(PaymentType) {
      assert canonical.value.Keys == f.Keys - {DeliverMax} + {Amount};
    }
  }

  /** The value an amount has in a transaction: drops as text, or currency, issuer and value. */
  predicate IsAmount(v: Value, amount: Sum) {
    match amount
    case Xrp(drops) => v == Text(drops)
    case IssuedCurrency(currency, issuer, value) =>
      v.Issued? && v.currency == currency && v.issuer == issuer && v.amount == value
  }

  const COMMON_FIELDS: set<Field> := {Account, Flags, Fee, Sequence, LastLedgerSequence, NetworkID}

  /** The fields every transaction of the service has besides its type. */
  predicate SaysCommon(f: Fields, account: string, p: Params) {
    && {Account, Flags, Fee, Sequence, LastLedgerSequence} <= f.Keys
    && f[Account] == Text(account) && f[Flags] == Number(0) && f[Fee] == Number(p.fee)
    && f[Sequence] == Number(p.sequence) && f[LastLedgerSequence] == Number(p.lastLedgerSequence)
    && (NetworkID in f <==> p.networkId > 1024)
    && (NetworkID in f ==> f[NetworkID] == Number(p.networkId))
  }

  /** A Payment of exactly this payload, whose amount stands in field `amountField`. */
  predicate SaysPayment(f: Fields, a: Payload, p: Params, amountField: Field) {
    && a.Payment? && SaysCommon(f, a.account, p)
    && {TransactionType, Destination, amountField} <= f.Keys
    && f[TransactionType] == Kind(PaymentType)
    && f[Destination] == Text(a.destination) && IsAmount(f[amountField], a.amount)
    && (DestinationTag in f <==> a.destinationTag.Some?)
    && (DestinationTag in f && a.destinationTag.Some? ==> f[DestinationTag] == Number(a.destinationTag.value))
    && forall field | field in f :: field in COMMON_FIELDS || field in {TransactionType, Destination, DestinationTag, amountField}
  }

  /** A TrustSet of exactly this payload. */
  predicate SaysTrustSet(f: Fields, a: Payload, p: Params) {
    && a.TrustSet? && SaysCommon(f, a.account, p)
    && {TransactionType, LimitAmount} <= f.Keys
    && f[TransactionType] == Kind(TrustSetType)
    && f[LimitAmount].Issued?
    && f[LimitAmount].currency == a.currency && f[LimitAmount].issuer == a.issuer && f[LimitAmount].amount == a.value
    && forall field | field in f :: field in COMMON_FIELDS || field in {TransactionType, LimitAmount}
  }

  /** The transaction says exactly the payload, in the fields of the binary format. */
  predicate SaysPayload(f: Fields, a: Payload, p: Params) {
    if a.Payment? then SaysPayment(f, a, p, Amount) else SaysTrustSet(f, a, p)
  }

  /** The bytes serialize, in upper case, the transaction that says exactly the payload. */
  ghost predicate BytesSay(blob: string, a: Payload, p: Params) {
    exists f: Fields :: SaysPayload(f, a, p) && xrpl.encode(f).Some? && blob == Upper(xrpl.encode(f).value)
  }

  /** The built transaction says the payload, with DeliverMax in the place of Amount. */
  lemma BuiltSays(a: Payload, p: Params)
    ensures var f := BuildTransaction(a, p);
      if a.Payment? then SaysPayment(f, a, p, DeliverMax) else SaysTrustSet(f, a, p)
  {
    if a.Payment? {
      BuiltPaymentSays(a, p);
    } else {
      BuiltTrustSetSays(a, p);
    }
  }

  lemma BuiltPaymentSays(a: Payload, p: Params)
    requires a.Payment?
    ensures SaysPayment(BuildTransaction(a, p), a, p, DeliverMax)
  {
    hide CommonFields, PaymentFields, SaysCommon, IsAmount;
    CommonSays(a.account, p);
    PaymentSays(a.destination, a.amount, a.destinationTag);
    SameCommon(CommonFields(a.account, p), BuildTransaction(a, p), a.account, p);
  }

  lemma BuiltTrustSetSays(a: Payload, p: Params)
    requires a.TrustSet?
    ensures SaysTrustSet(BuildTransaction(a, p), a, p)
  {
    hide CommonFields, TrustSetFields, SaysCommon;
    CommonSays(a.account, p);
    TrustSetSays(a.currency, a.issuer, a.value);
    SameCommon(CommonFields(a.account, p), BuildTransaction(a, p), a.account, p);
  }

  lemma CommonSays(account: string, p: Params)
    ensures SaysCommon(CommonFields(account, p), account, p)
    ensures forall field | field in CommonFields(account, p) :: field in COMMON_FIELDS
  {
  }

  lemma PaymentSays(destination: string, amount: Sum, destinationTag: Option<nat>)
    ensures var f := PaymentFields(destination, amount, destinationTag);
      && {TransactionType, Destination, DeliverMax} <= f.Keys
      && f[TransactionType] == Kind(PaymentType) && f[Destination] == Text(destination) && IsAmount(f[DeliverMax], amount)
      && (DestinationTag in f <==> destinationTag.Some?)
      && (DestinationTag in f && destinationTag.Some? ==> f[DestinationTag] == Number(destinationTag.value))
      && forall field | field in f :: field in {TransactionType, Destination, DestinationTag, DeliverMax}
  {
  }

  lemma TrustSetSays(currency: string, issuer: string, value: string)
    ensures var f := TrustSetFields(currency, issuer, value);
      && f.Keys == {TransactionType, LimitAmount} && f[TransactionType] == Kind(TrustSetType)
      && f[LimitAmount] == Issued(currency, issuer, value)
  {
  }

  /** What is serialized for a built transaction says exactly the payload. */
  lemma EncodedSays(a: Payload, p: Params)
    ensures EncodeTransaction(BuildTransaction(a, p)).Some? ==>
      BytesSay(EncodeTransaction(BuildTransaction(a, p)).value, a, p)
  {
    hide BuildTransaction;
    BuiltSays(a, p);
    var f := BuildTransaction(a, p);
    CanonicalFormExactly(f);
    CanonicalSays(f, a, p);
  }

  lemma CanonicalSays(f: Fields, a: Payload, p: Params)
    requires if a.Payment? then SaysPayment(f, a, p, DeliverMax) else SaysTrustSet(f, a, p)
    ensures ToCanonicalForm(f).Some? && SaysPayload(ToCanonicalForm(f).value, a, p)
  {
    hide ToCanonicalForm, SaysPayment, SaysTrustSet;
    CanonicalFormExactly(f);
    HasNoAmount(f, a, p);
    if a.Payment? {
      AmountForDeliverMax(f, ToCanonicalForm(f).value, a, p);
    }
  }

  /** The library accepts and serializes the transaction that says exactly the payload. */
  ghost predicate Buildable(a: Payload, p: Params) {
    exists f: Fields :: SaysPayload(f, a, p) && xrpl.validate(f) && xrpl.encode(f).Some?
  }

  lemma BuildableExactlyWhen(a: Payload, p: Params)
    ensures var f := BuildTransaction(a, p);
      ValidTransaction(f) && EncodeTransaction(f).Some? <==> Buildable(a, p)
  {
    hide BuildTransaction, SaysPayload, ToCanonicalForm;
    BuiltSays(a, p);
    CanonicalSays(BuildTransaction(a, p), a, p);
    var canonical := ToCanonicalForm(BuildTransaction(a, p)).value;
    forall f: Fields | SaysPayload(f, a, p) ensures f == canonical {
      PayloadIsSaidOnce(f, canonical, a, p);
    }
  }

  /** One payload with its parameters is said by one transaction. */
  lemma PayloadIsSaidOnce(f: Fields, g: Fields, a: Payload, p: Params)
    requires SaysPayload(f, a, p) && SaysPayload(g, a, p)
    ensures f == g
  {
    hide SaysCommon;
    CommonIsSaidOnce(f, g, a.account, p);
    forall field | field in f ensures field in g && g[field] == f[field] {
      if field !in COMMON_FIELDS && a.Payment? {
        assert field in {TransactionType, Destination, DestinationTag, Amount};
      }
    }
    forall field | field in g ensures field in f {
      if field !in COMMON_FIELDS && a.Payment? {
        assert field in {TransactionType, Destination, DestinationTag, Amount};
      }
    }
  }

  lemma CommonIsSaidOnce(f: Fields, g: Fields, account: string, p: Params)
    requires SaysCommon(f, account, p) && SaysCommon(g, account, p)
    ensures forall field | field in COMMON_FIELDS :: (field in f <==> field in g) && (field in f ==> f[field] == g[field])
  {
  }

  lemma AmountForDeliverMax(f: Fields, g: Fields, a: Payload, p: Params)
    requires SaysPayment(f, a, p, DeliverMax) && Amount !in f
    requires g.Keys == f.Keys - {DeliverMax} + {Amount} && g[Amount] == f[DeliverMax]
    requires forall field | field in f && field != DeliverMax && field != Amount :: g[field] == f[field]
    ensures SaysPayment(g, a, p, Amount)
  {
    hide SaysCommon, IsAmount;
    SameCommon(f, g, a.account, p);
    forall field | field in g ensures field in COMMON_FIELDS || field in {TransactionType, Destination, DestinationTag, Amount} {
      if field != Amount {
        assert field in f;
      }
    }
  }

  lemma HasNoAmount(f: Fields, a: Payload, p: Params)
    requires if a.Payment? then SaysPayment(f, a, p, DeliverMax) else SaysTrustSet(f, a, p)
    ensures Amount !in f && TransactionType in f
    ensures f[TransactionType] == Kind(if a.Payment? then PaymentType else TrustSetType)
    ensures a.Payment? <==> DeliverMax in f
  {
    hide SaysCommon;
  }

  lemma SameCommon(f: Fields, g: Fields, account: string, p: Params)
    requires SaysCommon(f, account, p)
    requires forall field | field in COMMON_FIELDS :: (field in f <==> field in g) && (field in f ==> g[field] == f[field])
    ensures SaysCommon(g, account, p)
  {
  }

  // ---- recognizing blobs -------------------------------------------------------------------

  const SIGNATURE_FIELDS: set<Field> := {SigningPubKey, TxnSignature}

  /** What the ledger's admission rules look at. */
  datatype Header = Header(account: string, sequence: nat, lastLedger: nat)

  function HeaderOf(blob: string): Option<Header> {
    match xrpl.decode(blob)
    case None => None
    case Some(f) =>
      if && Account in f && f[Account].Text?
         && Sequence in f && f[Sequence].Number?
         && LastLedgerSequence in f && f[LastLedgerSequence].Number? then
        Some(Header(f[Account].text, f[Sequence].number, f[LastLedgerSequence].number))
      else
        None
  }

  /** The prepared blob inside a signed one: decode, drop the signature fields, serialize. */
  function Strip(signedBlob: string): Option<string> {
    match xrpl.decode(signedBlob)
    case None => None
    case Some(f) =>
      match xrpl.encode(f - SIGNATURE_FIELDS)
      case None => None
      case Some(text) => Some(Upper(text))
  }

  function SignedHeader(signedBlob: string): Option<Header> {
    match Strip(signedBlob)
    case None => None
    case Some(prepared) => HeaderOf(prepared)
  }

  function TransactionHash(signedBlob: string): string {
    Upper(xrpl.hashSignedTx(signedBlob))
  }

  lemma HashIdentifiesBlob(a: string, b: string)
    requires a == Upper(a) && b == Upper(b)
    requires TransactionHash(a) == TransactionHash(b)
    ensures a == b
  {
  }

  lemma DistinctBlobsDistinctHashes(a: string, b: string)
    requires a == Upper(a) && b == Upper(b) && a != b
    ensures TransactionHash(a) != TransactionHash(b)
  {
  }

  /** The bytes of a built transaction name its account, Sequence and LastLedgerSequence. */
  lemma BuiltHeader(intent: Payload, params: Params)
    requires EncodeTransaction(BuildTransaction(intent, params)).Some?
    ensures HeaderOf(EncodeTransaction(BuildTransaction(intent, params)).value)
         == Some(Header(intent.account, params.sequence, params.lastLedgerSequence))
  {
    hide BuildTransaction;
    BuiltSays(intent, params);
    var canonical := ToCanonicalForm(BuildTransaction(intent, params)).value;
    assert canonical[Account] == Text(intent.account);
    assert canonical[Sequence] == Number(params.sequence);
    assert canonical[LastLedgerSequence] == Number(params.lastLedgerSequence);
    var text := xrpl.encode(canonical).value;
    assert KeepsHeader(canonical, xrpl.decode(Upper(text)));
  }

  // ---- simulation echo ---------------------------------------------------------------------

  const ECHO_IGNORED: set<Field> := {SigningPubKey, TxnSignature, Hash}

  /** Serialization of a simulated transaction without its signature fields and hash. */
  function ComparableEncoding(transaction: Fields): Option<string> {
    match ToCanonicalForm(transaction)
    case None => None
    case Some(canonical) => xrpl.encode(canonical - ECHO_IGNORED)
  }

  predicate SimulationMatchesPrepared(prepared: Fields, simulated: Option<Fields>) {
    && simulated.Some?
    && ComparableEncoding(prepared).Some?
    && ComparableEncoding(prepared) == ComparableEncoding(simulated.value)
  }

  lemma BuiltHasNoSignature(intent: Payload, params: Params)
    ensures ToCanonicalForm(BuildTransaction(intent, params)).Some?
    ensures ToCanonicalForm(BuildTransaction(intent, params)).value.Keys !! {SigningPubKey, TxnSignature, Hash}
  {
    hide BuildTransaction, ToCanonicalForm;
    BuiltSays(intent, params);
    CanonicalSays(BuildTransaction(intent, params), intent, params);
  }

  /** The bytes of a simulated transaction without its key, its signature and its hash. */
  function EchoBytes(echo: Fields): Option<string> {
    if ToCanonicalForm(echo).None? then None
    else xrpl.encode(ToCanonicalForm(echo).value - {SigningPubKey, TxnSignature, Hash})
  }

  /** A matching echo of a built transaction serializes to exactly the bytes that were prepared. */
  lemma MatchingEchoIsPrepared(intent: Payload, params: Params, simulated: Option<Fields>)
    ensures ToCanonicalForm(BuildTransaction(intent, params)).Some?
    ensures SimulationMatchesPrepared(BuildTransaction(intent, params), simulated) <==>
      && simulated.Some? && EchoBytes(simulated.value).Some?
      && EchoBytes(simulated.value) == xrpl.encode(ToCanonicalForm(BuildTransaction(intent, params)).value)
  {
    hide BuildTransaction, ToCanonicalForm;
    BuiltHasNoSignature(intent, params);
    NothingToDrop(ToCanonicalForm(BuildTransaction(intent, params)).value);
  }

  /** The echo serializes to the bytes of a transaction that says exactly the payload. */
  ghost predicate EchoSays(echo: Fields, a: Payload, p: Params) {
    exists f: Fields :: SaysPayload(f, a, p) && xrpl.encode(f).Some? && EchoBytes(echo) == xrpl.encode(f)
  }

  lemma MatchingEchoSays(a: Payload, p: Params, simulated: Option<Fields>)
    requires SimulationMatchesPrepared(BuildTransaction(a, p), simulated)
    ensures simulated.Some? && EchoSays(simulated.value, a, p)
  {
    hide BuildTransaction, ToCanonicalForm, EchoBytes;
    MatchingEchoIsPrepared(a, p, simulated);
    BuiltSays(a, p);
    CanonicalSays(BuildTransaction(a, p), a, p);
  }

  lemma NothingToDrop(f: Fields)
    requires f.Keys !! {SigningPubKey, TxnSignature, Hash}
    ensures f - {SigningPubKey, TxnSignature, Hash} == f
  {
  }

  /** Under one network, the built transaction determines the intent and every parameter. */
  lemma BuildIsInjective(a: Payload, p: Params, b: Payload, q: Params)
    requires p.networkId == q.networkId
    requires BuildTransaction(a, p) == BuildTransaction(b, q)
    ensures a == b && p == q
  {
    hide BuildTransaction;
    BuiltSays(a, p);
    BuiltSays(b, q);
  }
}
