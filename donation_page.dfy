/** The donation form of `pages/Donation.tsx`: amount validation, input sanitising, the
    construction of the new donation, the `form → processing → success` step machine,
    and the cloud sync (save, capture, upload) with its `idle/syncing/synced/error`
    status machine. */
module DonationPage {
  import opened Wrappers
  import opened Strings
  import opened Types
  import opened Store
  import opened Appwrite

  const MaxAmount: int := 1000000
  const MaxNameLength: nat := 100
  const MaxPurposeLength: nat := 500
  const AnonymousDonor: string := "Anonymous Donor"
  const DisplayPrefix: string := "ACF-"
  const InvalidAmountMessage: string := "Please enter a valid donation amount greater than ₹0"
  const AmountTooLargeMessage: string := "Donation amount cannot exceed ₹10,00,000"
  const ConnectivityMessage: string := "Unable to connect to server. Please check your internet connection and try again."
  const ReceiptFailureMessage: string := "Failed to generate receipt. Please try again."
  const PlatformMessage: string := "Network Error: Please ensure your domain is registered in the Appwrite Console 'Platforms' settings."
  const SyncFailureMessage: string := "Failed to sync with cloud storage."

  /** `Number(formData.amount)`: not a number, or an integer value. */
  datatype JsNumber = NaN | Num(value: int)

  datatype Step = Form | Processing | Succeeded

  datatype SyncStatus = Idle | Syncing | Synced | SyncError

  /** The amount checks: NaN, zero and negative amounts are refused with one message,
      amounts above ten lakh with another; everything else is accepted unchanged. */
  function ValidateAmount(n: JsNumber): (r: Result<int, string>)
    ensures r.Ok? <==> n.Num? && 0 < n.value <= MaxAmount
    ensures r.Ok? ==> r.value == n.value
    ensures r == Err(InvalidAmountMessage) <==> n.NaN? || n.value <= 0
    ensures r == Err(AmountTooLargeMessage) <==> n.Num? && n.value > MaxAmount
  {
    match n
    case NaN => Err(InvalidAmountMessage)
    case Num(amount) =>
      if amount == 0 || amount <= 0 then Err(InvalidAmountMessage)
      else if amount > MaxAmount then Err(AmountTooLargeMessage)
      else Ok(amount)
  }

  /** `(text || "").trim().slice(0, cap)`: trimmed at both ends (before the cut), then
      cut to `cap` characters. */
  function SanitizeField(text: string, cap: nat): (r: string)
    ensures |r| <= cap && |r| <= |Trim(text)| && r == Trim(text)[..|r|]
    ensures |Trim(text)| <= cap ==> r == Trim(text)
    ensures r == [] <==> AllWhitespace(text) || cap == 0
  {
    Take(Trim(text), cap)
  }

  /** The donation the form creates once the amount is valid. */
  function NewDonation(id: string, passId: string, receiptId: int, name: string, amount: int,
                       purpose: string, timestamp: string): (d: Donation)
    ensures d.id == id && d.passId == passId && d.amount == amount && d.timestamp == timestamp
    ensures d.receiptId == Some(receiptId) && d.transactionId == DisplayPrefix + IntToString(receiptId)
    ensures d.donorName != [] && |d.donorName| <= MaxNameLength
    ensures !AllWhitespace(name) ==> d.donorName == SanitizeField(name, MaxNameLength)
    ensures AllWhitespace(name) ==> d.donorName == AnonymousDonor
    ensures d.purpose == Some(SanitizeField(purpose, MaxPurposeLength))
    ensures d.paymentMethod == DefaultPaymentMethod && d.status == Success
  {
    var sanitizedName := SanitizeField(name, MaxNameLength);
    Donation(
      id := id,
      donorName := if sanitizedName != [] then sanitizedName else AnonymousDonor,
      amount := amount,
      purpose := Some(SanitizeField(purpose, MaxPurposeLength)),
      timestamp := timestamp,
      transactionId := DisplayPrefix + IntToString(receiptId),
      passId := passId,
      receiptId := Some(receiptId),
      paymentMethod := DefaultPaymentMethod,
      status := Success)
  }

  /** Two donations made with different receipt ids get different display ids. */
  lemma DisplayIdsDistinct(a: int, b: int)
    requires a != b
    ensures DisplayPrefix + IntToString(a) != DisplayPrefix + IntToString(b)
  {
    if DisplayPrefix + IntToString(a) == DisplayPrefix + IntToString(b) {
      assert IntToString(a) == (DisplayPrefix + IntToString(a))[|DisplayPrefix|..];
      assert IntToString(b) == (DisplayPrefix + IntToString(b))[|DisplayPrefix|..];
      IntToStringInjective(a, b);
    }
  }

  /** An id issued by the form (`ACF-`) never equals one issued by re-allocation or the
      ledger fallback (`YGYA-`): the two prefixes differ in their first letter. */
  lemma IssuedAndReallocatedIdsDiffer(a: int, b: int)
    ensures DisplayPrefix + IntToString(a) != LegacyPrefix + IntToString(b)
  {
    assert (DisplayPrefix + IntToString(a))[0] == 'A';
    assert (LegacyPrefix + IntToString(b))[0] == 'Y';
  }

  /** The message shown when creating the receipt throws. */
  function SubmitFailureMessage(errorMessage: string): (m: string)
    ensures m == ConnectivityMessage <==> errorMessage == "Failed to fetch"
    ensures m != ConnectivityMessage ==> m == ReceiptFailureMessage
  {
    if errorMessage == "Failed to fetch" then ConnectivityMessage else ReceiptFailureMessage
  }

  /** The message shown when the sync throws with message `errorMessage` (empty when the
      error carries none). */
  function SyncErrorMessage(errorMessage: string): (m: string)
    ensures m != []
    ensures m == PlatformMessage <==> errorMessage == "Failed to fetch" || errorMessage == PlatformMessage
    ensures errorMessage != "Failed to fetch" && errorMessage != [] ==> m == errorMessage
    ensures errorMessage == [] ==> m == SyncFailureMessage
  {
    if errorMessage == "Failed to fetch" then PlatformMessage
    else if errorMessage != [] then errorMessage
    else SyncFailureMessage
  }

  /** What capturing the pass image gives: no pass element on the page, a capture that
      throws, a canvas that yields no blob, or a blob to upload. */
  datatype Capture = NoElement | CaptureFailed(message: string) | NoBlob | Blob

  /** The error that ends a sync, if any: the save's, then the capture's, then the
      upload's. */
  function SyncFailure(save: SaveOutcome, capture: Capture, uploadError: Option<string>): (e: Option<string>)
    ensures e.None? <==> save.Saved? && !capture.CaptureFailed? && (capture.Blob? ==> uploadError.None?)
    ensures save.SaveFailed? ==> e == Some(save.message)
  {
    if save.SaveFailed? then Some(save.message)
    else match capture
      case NoElement => None
      case NoBlob => None
      case CaptureFailed(m) => Some(m)
      case Blob => uploadError
  }

  /** The upload's file name, `Pass_<transactionId>.png`. */
  function PassFileName(transactionId: string): string {
    "Pass_" + transactionId + ".png"
  }

  /** The page's state. The receipt is the very object the sync hands to the save, so the
      save's in-place re-allocation shows on the receipt and is what a retry sends. */
  class DonationForm {
    var step: Step
    var receipt: Option<Donation>
    var syncStatus: SyncStatus
    var errorMessage: Option<string>

    /** A successful page always has a receipt to show, and a receipt always carries a
        receipt id (the save needs it). */
    predicate Valid()
      reads this
    {
      && (step == Succeeded ==> receipt.Some?)
      && (receipt.Some? ==> receipt.value.receiptId.Some?)
    }

    constructor ()
      ensures Valid() && step == Form && receipt == None && syncStatus == Idle && errorMessage == None
    {
      step := Form;
      receipt := None;
      syncStatus := Idle;
      errorMessage := None;
    }

    /** `handleSubmit`. An invalid amount leaves the step and receipt alone, shows the
        message and allocates nothing; a valid one allocates a receipt id, builds the
        donation, and moves through processing to success. `passId` and `id` are the two
        calls to `crypto.randomUUID` (pass id first, record id after the allocation): the
        UUID, or the message of the error the call threw, which the `catch` turns into its
        message and a return to the form. Returns the donation handed to `onDonate` and the
        number of receipt queries made. */
    method HandleSubmit(amountInput: JsNumber, name: string, purpose: string,
                        passId: Result<string, string>, id: Result<string, string>, timestamp: string,
                        probes: seq<Probe>, word: nat)
      returns (donation: Option<Donation>, queries: nat)
      requires Valid()
      requires DefaultMaxRetries <= |probes| && word < 0x1_0000_0000
      modifies this
      ensures Valid()
      ensures ValidateAmount(amountInput).Err? ==>
                && donation == None && queries == 0
                && errorMessage == Some(ValidateAmount(amountInput).error)
                && step == old(step) && receipt == old(receipt) && syncStatus == old(syncStatus)
      ensures ValidateAmount(amountInput).Ok? && passId.Err? ==>
                && donation == None && queries == 0
                && errorMessage == Some(SubmitFailureMessage(passId.error))
                && step == Form && receipt == old(receipt) && syncStatus == old(syncStatus)
      ensures ValidateAmount(amountInput).Ok? && passId.Ok? && id.Err? ==>
                && donation == None
                && queries == NextReceiptId(probes, DefaultMaxRetries, word, 0).queries
                && errorMessage == Some(SubmitFailureMessage(id.error))
                && step == Form && receipt == old(receipt) && syncStatus == old(syncStatus)
      ensures ValidateAmount(amountInput).Ok? && passId.Ok? && id.Ok? ==>
                var a := NextReceiptId(probes, DefaultMaxRetries, word, 0);
                var d := NewDonation(id.value, passId.value, a.id, name, amountInput.value, purpose, timestamp);
                && donation == Some(d) && receipt == Some(d) && queries == a.queries
                && step == Succeeded && errorMessage == None && syncStatus == old(syncStatus)
    {
      errorMessage := None;
      var checked := ValidateAmount(amountInput);
      if checked.Err? {
        errorMessage := Some(checked.error);
        return None, 0;
      }
      var amount := checked.value;
      step := Processing;
      if passId.Err? {
        errorMessage := Some(SubmitFailureMessage(passId.error));
        step := Form;
        return None, 0;
      }
      var allocation := GetNextReceiptId(probes, DefaultMaxRetries, word);
      if id.Err? {
        errorMessage := Some(SubmitFailureMessage(id.error));
        step := Form;
        return None, allocation.queries;
      }
      var newDonation := NewDonation(id.value, passId.value, allocation.id, name, amount, purpose, timestamp);
      receipt := Some(newDonation);
      step := Succeeded;
      return Some(newDonation), allocation.queries;
    }

    /** `syncToCloud(donation)`: save the record, then capture the pass and upload it when
        a blob was produced. Synced exactly when the save and, if there was a blob, the
        upload succeed; any failure sets the error status and its message. The receipt
        shows the donation as the save left it. Returns the collection afterwards and the
        name of the uploaded file, if one was uploaded. */
    method SyncToCloud(donation: Donation, store: seq<Doc>, env: SaveEnv, capture: Capture, uploadError: Option<string>)
      returns (newStore: seq<Doc>, uploaded: Option<string>)
      requires Valid() && ValidEnv(env) && donation.receiptId.Some?
      requires receipt == Some(donation)
      modifies this
      ensures step == old(step)
      ensures var run := Save(store, donation, 0, env);
              && newStore == run.store
              && receipt == Some(run.donation)
              && var failure := SyncFailure(run.outcome, capture, uploadError);
                 && (failure.None? ==> syncStatus == Synced && errorMessage == None)
                 && (failure.Some? ==> syncStatus == SyncError && errorMessage == Some(SyncErrorMessage(failure.value)))
                 && (uploaded.Some? <==> run.outcome.Saved? && capture.Blob?)
                 && (uploaded.Some? ==> uploaded.value == PassFileName(run.donation.transactionId))
      ensures Valid()
    {
      syncStatus := Syncing;
      errorMessage := None;
      var run := SaveDonationDetails(store, donation, 0, env);
      SaveOnlyReallocates(store, donation, 0, env);
      newStore := run.store;
      uploaded := if run.outcome.Saved? && capture.Blob? then Some(PassFileName(run.donation.transactionId)) else None;
      var failure := SyncFailure(run.outcome, capture, uploadError);
      receipt := Some(run.donation);
      if failure.None? {
        syncStatus := Synced;
      } else {
        syncStatus := SyncError;
        errorMessage := Some(SyncErrorMessage(failure.value));
      }
    }
  }
}
