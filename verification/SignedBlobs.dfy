/** The artifact-integrity boundary: which signed blobs are accepted for a prepared blob. */
module SignedBlobs {
  import opened Wrappers
  import opened Transactions
  import opened Ledger

  const SIGNED_TX_MAX_HEX_CHARS: nat := 32768

  const FORBIDDEN_SIGNED_FIELDS: set<Field> :=
    {Signers, Sponsor, SponsorFlags, SponsorSignature, Delegate, TicketSequence, AccountTxnID}

  predicate IsHexDigit(c: char) {
    '0' <= c <= '9' || 'A' <= c <= 'F' || 'a' <= c <= 'f'
  }

  predicate IsHexText(s: string) {
    && 0 < |s| <= SIGNED_TX_MAX_HEX_CHARS && |s| % 2 == 0
    && forall i | 0 <= i < |s| :: IsHexDigit(s[i])
  }

  predicate NonEmptyText(f: Fields, field: Field) {
    field in f && f[field].Text? && f[field].text != ""
  }

  /** A decodable transaction with one signature, one key and no field of another signing scheme. */
  predicate SingleSigned(f: Fields) {
    && NonEmptyText(f, TxnSignature) && NonEmptyText(f, SigningPubKey)
    && f.Keys !! FORBIDDEN_SIGNED_FIELDS
  }

  predicate WellFormed(txBlob: string) {
    && IsHexText(txBlob)
    && xrpl.decode(Upper(txBlob)).Some?
    && SingleSigned(xrpl.decode(Upper(txBlob)).value)
  }

  datatype VerifiedBlob = VerifiedBlob(txBlob: string, transactionHash: string, signingPubKey: string)

  /** Without its signature fields the blob serializes to the prepared one, and adds no field to it. */
  predicate IsPreparedPlusSignature(txBlob: string, preparedTxBlob: string) {
    && xrpl.decode(Upper(txBlob)).Some? && xrpl.decode(preparedTxBlob).Some?
    && xrpl.decode(Upper(txBlob)).value.Keys - SIGNATURE_FIELDS <= xrpl.decode(preparedTxBlob).value.Keys
    && Strip(Upper(txBlob)) == Some(preparedTxBlob)
  }

  predicate SignatureVerifies(txBlob: string)
    requires WellFormed(txBlob)
  {
    var f := xrpl.decode(Upper(txBlob)).value;
    xrpl.verifySignature(f - {TxnSignature}, f[TxnSignature].text, f[SigningPubKey].text)
  }

  /** One valid signature by the key the blob names. */
  predicate CarriesSignature(v: VerifiedBlob) {
    && WellFormed(v.txBlob) && SignatureVerifies(v.txBlob)
    && v.signingPubKey == Upper(xrpl.decode(Upper(v.txBlob)).value[SigningPubKey].text)
  }

  /** The artifact-integrity boundary: the prepared blob plus one valid signature, under its own hash. */
  predicate IsSignedForm(v: VerifiedBlob, preparedTxBlob: string) {
    && v.txBlob == Upper(v.txBlob)
    && Strip(v.txBlob) == Some(preparedTxBlob)
    && v.transactionHash == TransactionHash(v.txBlob)
    && CarriesSignature(v)
  }

  /** The master key unless disabled, or the current RegularKey. */
  predicate IsAuthorized(signingPubKey: string, sourceAccount: string, account: AccountInfo) {
    var signer := xrpl.deriveAddress(signingPubKey);
    && signer.Some?
    && if signer.value == sourceAccount then !account.disableMasterKey else account.regularKey == signer
  }

  /**
   * What is accepted for a prepared blob, written out: hexadecimal text of a transaction with one
   * key, one signature and no other signing scheme, that without these two fields serializes to the
   * prepared blob and names no field that the prepared blob does not.
   */
  lemma AcceptedExactlyWhen(txBlob: string, preparedTxBlob: string)
    ensures WellFormed(txBlob) <==>
      && 0 < |txBlob| <= 32768 && |txBlob| % 2 == 0
      && (forall i | 0 <= i < |txBlob| :: '0' <= txBlob[i] <= '9' || 'A' <= txBlob[i] <= 'F' || 'a' <= txBlob[i] <= 'f')
      && xrpl.decode(Upper(txBlob)).Some?
      && var f := xrpl.decode(Upper(txBlob)).value;
         && TxnSignature in f && f[TxnSignature].Text? && f[TxnSignature].text != ""
         && SigningPubKey in f && f[SigningPubKey].Text? && f[SigningPubKey].text != ""
         && Signers !in f && Sponsor !in f && SponsorFlags !in f && SponsorSignature !in f
         && Delegate !in f && TicketSequence !in f && AccountTxnID !in f
    ensures IsPreparedPlusSignature(txBlob, preparedTxBlob) <==>
      && xrpl.decode(Upper(txBlob)).Some? && xrpl.decode(preparedTxBlob).Some?
      && var f := xrpl.decode(Upper(txBlob)).value;
         && (forall field | field in f && field != SigningPubKey && field != TxnSignature ::
               field in xrpl.decode(preparedTxBlob).value)
         && xrpl.encode(f - {SigningPubKey, TxnSignature}).Some?
         && Upper(xrpl.encode(f - {SigningPubKey, TxnSignature}).value) == preparedTxBlob
    ensures WellFormed(txBlob) ==> (SignatureVerifies(txBlob) <==>
      var f := xrpl.decode(Upper(txBlob)).value;
      xrpl.verifySignature(f - {TxnSignature}, f[TxnSignature].text, f[SigningPubKey].text))
  {
  }

  /** The key derives the account itself, whose master key is enabled, or else its regular key. */
  ghost predicate MaySign(signingPubKey: string, sourceAccount: string, account: AccountInfo) {
    || (xrpl.deriveAddress(signingPubKey) == Some(sourceAccount) && !account.disableMasterKey)
    || (exists signer :: xrpl.deriveAddress(signingPubKey) == Some(signer) && signer != sourceAccount
                         && account.regularKey == Some(signer))
  }

  lemma AuthorizedExactlyWhen(signingPubKey: string, sourceAccount: string, account: AccountInfo)
    ensures IsAuthorized(signingPubKey, sourceAccount, account) <==> MaySign(signingPubKey, sourceAccount, account)
  {
  }

  /**
   * Accepts exactly the well-formed blobs that are the prepared one plus a valid signature. The
   * library calls on the prepared blob and on the stripped fields stand outside any try block;
   * when they throw, so does this.
   */
  method Verify(txBlob: string, preparedTxBlob: string) returns (r: Result<VerifiedBlob>)
    ensures r.Success? <==>
      WellFormed(txBlob) && IsPreparedPlusSignature(txBlob, preparedTxBlob) && SignatureVerifies(txBlob)
    ensures r.Success? ==>
      && r.value.txBlob == Upper(txBlob)
      && r.value.transactionHash == TransactionHash(Upper(txBlob))
      && r.value.signingPubKey == Upper(xrpl.decode(Upper(txBlob)).value[SigningPubKey].text)
    ensures r == Failure(InvalidSignedTransaction) <==> !WellFormed(txBlob)
    ensures r == Failure(InvalidSignature) <==>
      WellFormed(txBlob) && IsPreparedPlusSignature(txBlob, preparedTxBlob) && !SignatureVerifies(txBlob)
    ensures r.Failure? ==>
      r.error in {InvalidSignedTransaction, InvalidSignature, SignedTransactionMismatch, UncaughtError}
    ensures r == Failure(UncaughtError) ==>
      xrpl.decode(preparedTxBlob).None? || (WellFormed(txBlob) && Strip(Upper(txBlob)).None?)
  {
    if !IsHexText(txBlob) {
      return Failure(InvalidSignedTransaction);
    }
    var normalized := Upper(txBlob);
    var decode := xrpl.decode(normalized);
    if decode.None? {
      return Failure(InvalidSignedTransaction);
    }
    var decoded := decode.value;
    if !NonEmptyText(decoded, TxnSignature) || !NonEmptyText(decoded, SigningPubKey) {
      return Failure(InvalidSignedTransaction);
    }
    if exists field | field in FORBIDDEN_SIGNED_FIELDS :: field in decoded {
      return Failure(InvalidSignedTransaction);
    }

    var prepared := xrpl.decode(preparedTxBlob);
    if prepared.None? {
      return Failure(UncaughtError);
    }
    var preparedFields := prepared.value.Keys;
    var unsigned: Fields := map[];
    var fields := decoded.Keys;
    while fields != {}
      invariant fields <= decoded.Keys
      invariant unsigned == map field | field in decoded && field !in fields && field !in SIGNATURE_FIELDS :: decoded[field]
      invariant unsigned.Keys <= preparedFields
    {
      var field :| field in fields;
      fields := fields - {field};
      if field !in SIGNATURE_FIELDS {
        if field !in preparedFields {
          return Failure(SignedTransactionMismatch);
        }
        unsigned := unsigned[field := decoded[field]];
      }
    }
    assert unsigned == decoded - SIGNATURE_FIELDS;
    var encoded := xrpl.encode(unsigned);
    if encoded.None? {
      return Failure(UncaughtError);
    }
    if Upper(encoded.value) != preparedTxBlob {
      return Failure(SignedTransactionMismatch);
    }

    if !xrpl.verifySignature(decoded - {TxnSignature}, decoded[TxnSignature].text, decoded[SigningPubKey].text) {
      return Failure(InvalidSignature);
    }
    return Success(VerifiedBlob(normalized, TransactionHash(normalized), Upper(decoded[SigningPubKey].text)));
  }

  lemma UpperHexIsHex(s: string)
    requires IsHexText(s)
    ensures IsHexText(Upper(s))
  {
    forall i | 0 <= i < |s| ensures IsHexDigit(Upper(s)[i]) {
      assert IsHexDigit(s[i]);
    }
  }

  /** An accepted blob is a signed form of the prepared blob, as the protocol demands. */
  lemma AcceptedIsSignedForm(txBlob: string, preparedTxBlob: string, v: VerifiedBlob)
    requires WellFormed(txBlob) && IsPreparedPlusSignature(txBlob, preparedTxBlob) && SignatureVerifies(txBlob)
    requires v.txBlob == Upper(txBlob) && v.transactionHash == TransactionHash(Upper(txBlob))
    requires v.signingPubKey == Upper(xrpl.decode(Upper(txBlob)).value[SigningPubKey].text)
    ensures IsSignedForm(v, preparedTxBlob)
  {
    UpperTwice(txBlob);
    UpperHexIsHex(txBlob);
  }
}
