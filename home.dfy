/** The pass verification of `pages/Home.tsx`: an identifier typed (upper-cased as it is
    typed) or scanned from a pass's QR code (trimmed) is looked up in the cloud, and the
    page shows either the donation the pass stands for or "not found". */
module Home {
  import opened Wrappers
  import opened Strings
  import opened Types
  import opened Store
  import opened Appwrite

  /** What the verification panel shows once an answer is in. */
  datatype Display = Shown(donation: Donation) | NotFound

  /** The page's reading of a verification result: the stored document as a donation when
      the result is valid and carries one, otherwise "not found". */
  function ToDisplay(r: VerifyResult): (d: Display)
    ensures d.Shown? <==> r.valid && r.data.Some?
    ensures d.Shown? ==>
              && d.donation.passId == r.data.value.passId && d.donation.id == r.data.value.passId
              && d.donation.amount == r.data.value.amount && d.donation.donorName == r.data.value.name
              && d.donation.transactionId == r.data.value.transactionId
              && d.donation.timestamp == r.data.value.transactionDate
              && d.donation.purpose == Some(r.data.value.description)
              && d.donation.status == Success && d.donation.receiptId.None?
              && d.donation.paymentMethod == r.data.value.paymentMethod
  {
    if r.valid && r.data.Some? then
      var doc := r.data.value;
      Shown(Donation(
        id := doc.passId,
        donorName := doc.name,
        amount := doc.amount,
        purpose := Some(doc.description),
        timestamp := doc.transactionDate,
        transactionId := doc.transactionId,
        passId := doc.passId,
        receiptId := None,
        paymentMethod := doc.paymentMethod,
        status := Success))
    else NotFound
  }

  /** A pass is shown exactly when the cloud finds an authentic document for it; a
      tampered, missing or unreachable one is shown as not found. */
  lemma ShownIffAuthentic(store: seq<Doc>, id: string, reach: Reach, secret: string)
    requires reach.byPassId && reach.byTransactionId
    ensures ToDisplay(CloudVerdict(store, id, reach, secret)).Shown? <==>
              Locate(store, id).Some? && Authentic(Locate(store, id).value, secret)
    ensures ToDisplay(CloudVerdict(store, id, reach, secret)).Shown? ==>
              ToDisplay(CloudVerdict(store, id, reach, secret)).donation.passId == Locate(store, id).value.passId
  {
  }

  /** A pass saved moments ago, scanned from its QR code, shows the donor's pass id and
      amount. */
  lemma SavedPassIsShown(store: seq<Doc>, donation: Donation, env: SaveEnv, reach: Reach)
    requires ValidEnv(env) && donation.receiptId.Some?
    requires donation.timestamp != [] && '+' !in donation.timestamp
    requires forall d :: d in store ==> d.passId != donation.passId
    requires reach.byPassId && reach.byTransactionId
    ensures var run := Save(store, donation, 0, env);
            run.outcome.Saved? ==>
              var shown := ToDisplay(CloudVerdict(run.store, donation.passId, reach, env.secret));
              shown.Shown? && shown.donation.passId == donation.passId
              && shown.donation.amount == donation.amount
  {
    SaveThenVerify(store, donation, env);
  }

  /** `customTxnId || txnId`: the scanned text when it is not empty, else the typed one. */
  function ChooseId(custom: string, typed: string): (id: string)
    ensures custom != [] ==> id == custom
    ensures custom == [] ==> id == typed
    ensures id == [] <==> custom == [] && typed == []
  {
    if custom != [] then custom else typed
  }

  /** A text holding a lower-case ASCII letter. */
  predicate HasLowerAscii(s: string) {
    exists i :: 0 <= i < |s| && 'a' <= s[i] <= 'z'
  }

  /** A typed identifier, upper-cased as it is typed, holds no lower-case ASCII letter. */
  lemma TypedHasNoLower(text: string)
    ensures !HasLowerAscii(ToUpper(text))
  {
    var t := ToUpper(text);
    forall i | 0 <= i < |t| ensures !('a' <= t[i] <= 'z') {
      assert t[i] == UpperChar(text[i]);
    }
  }

  /** Pass ids are lower-case UUIDs, so a typed pass id never matches one: a pass found
      from the keyboard is always found by its transaction id. */
  lemma TypedLookupFindsOnlyByTransactionId(store: seq<Doc>, text: string)
    requires forall d :: d in store ==> HasLowerAscii(d.passId)
    ensures Locate(store, Trim(ToUpper(text))).Some? ==>
              Locate(store, Trim(ToUpper(text))).value.transactionId == Trim(ToUpper(text))
  {
    var id := Trim(ToUpper(text));
    TypedHasNoLower(text);
    if Locate(store, id).Some? {
      var doc := Locate(store, id).value;
      assert doc in store;
      if doc.passId == id {
        TrimHasNoLower(ToUpper(text));
      }
    }
  }

  /** Trimming adds no lower-case letter. */
  lemma TrimHasNoLower(s: string)
    requires !HasLowerAscii(s)
    ensures !HasLowerAscii(Trim(s))
  {
    var k := TrimSlice(s);
    forall i | 0 <= i < |Trim(s)| ensures !('a' <= Trim(s)[i] <= 'z') {
      assert Trim(s)[i] == s[k + i];
    }
  }

  /** What the panel shows for the id `id`: the page's reading of the cloud's verdict on
      the trimmed id. */
  function Answer(store: seq<Doc>, id: string, reach: Reach, secret: string): Display {
    ToDisplay(CloudVerdict(store, Trim(id), reach, secret))
  }

  /** `verifyFromCloud(id)` as the page reads its answer. */
  method VerifyForDisplay(store: seq<Doc>, id: string, reach: Reach, secret: string) returns (shown: Display)
    ensures shown == Answer(store, id, reach, secret)
  {
    var cloudResult := VerifyFromCloud(store, id, reach, secret);
    shown := ToDisplay(cloudResult);
  }

  /** The request part of `handleVerify`: no answer without an id, otherwise the answer
      for the chosen id. */
  method VerifyInput(customId: string, seenId: string, store: seq<Doc>, reach: Reach, secret: string)
    returns (result: Option<Display>)
    ensures ChooseId(customId, seenId) == [] ==> result.None?
    ensures ChooseId(customId, seenId) != [] ==> result == Some(Answer(store, ChooseId(customId, seenId), reach, secret))
  {
    var idToVerify := ChooseId(customId, seenId);
    if idToVerify == [] {
      return None;
    }
    var shown := VerifyForDisplay(store, idToVerify, reach, secret);
    result := Some(shown);
  }

  /** The verification panel's state. The scanner's callback is created when the scanner
      starts and keeps the typed id and scanning flag it saw then; `scannerSawId` and
      `scannerSawScanning` hold those. */
  class HomeVerifier {
    var txnId: string
    var verifyResult: Option<Display>
    var isVerifying: bool
    var isScanning: bool
    var modalOpen: bool
    var scannerSawId: string
    var scannerSawScanning: bool

    constructor ()
      ensures txnId == [] && verifyResult == None && !isVerifying && !isScanning && !modalOpen
    {
      txnId := [];
      verifyResult := None;
      isVerifying := false;
      isScanning := false;
      modalOpen := false;
      scannerSawId := [];
      scannerSawScanning := false;
    }

    /** `handleVerify(e, customTxnId)` as a callback that saw `seenId` and `seenScanning`.
        Without an id nothing happens; otherwise the answer for the trimmed id is shown,
        verification ends, and the scanner is stopped only if the callback saw it running. */
    method HandleVerify(customId: string, seenId: string, seenScanning: bool,
                        store: seq<Doc>, reach: Reach, secret: string)
      modifies this`verifyResult, this`isVerifying, this`isScanning
      ensures ChooseId(customId, seenId) == [] ==>
                && verifyResult == old(verifyResult) && isVerifying == old(isVerifying)
                && isScanning == old(isScanning)
      ensures ChooseId(customId, seenId) != [] ==>
                && verifyResult == Some(Answer(store, ChooseId(customId, seenId), reach, secret))
                && !isVerifying
                && isScanning == (old(isScanning) && !seenScanning)
    {
      var result := VerifyInput(customId, seenId, store, reach, secret);
      if result.Some? {
        // The spinner shown while the request is out is gone once it has returned.
        verifyResult, isVerifying, isScanning := result, false, isScanning && !seenScanning;
      }
    }

    /** The form's submit: the handler of the current render. */
    method Submit(store: seq<Doc>, reach: Reach, secret: string)
      modifies this`verifyResult, this`isVerifying, this`isScanning
      ensures txnId != [] ==>
                && verifyResult == Some(Answer(store, old(txnId), reach, secret))
                && !isVerifying && !isScanning
      ensures txnId == [] ==>
                && verifyResult == old(verifyResult) && isVerifying == old(isVerifying)
                && isScanning == old(isScanning)
    {
      HandleVerify([], txnId, isScanning, store, reach, secret);
    }

    /** Typing in the id field: the text is upper-cased. */
    method OnTyped(text: string)
      modifies this`txnId
      ensures txnId == ToUpper(text)
    {
      txnId := ToUpper(text);
    }

    /** `startScanner`: scanning starts and the previous answer is cleared; when the camera
        cannot be opened scanning stops again with an alert. */
    method StartScanner(cameraOk: bool) returns (alert: Option<string>)
      modifies this`scannerSawId, this`scannerSawScanning, this`isScanning, this`verifyResult
      ensures verifyResult == None && isScanning == cameraOk
      ensures scannerSawId == old(txnId) && scannerSawScanning == old(isScanning)
      ensures alert.Some? <==> !cameraOk
    {
      scannerSawId := txnId;
      scannerSawScanning := isScanning;
      isScanning := true;
      verifyResult := None;
      alert := None;
      if !cameraOk {
        isScanning := false;
        alert := Some("Camera access denied.");
      }
    }

    /** The scanner's callback on a decoded QR code: the text is trimmed into the id field
        and verified, by the handler the scanner was started with. */
    method OnScanned(decoded: string, store: seq<Doc>, reach: Reach, secret: string)
      modifies this`txnId, this`verifyResult, this`isVerifying, this`isScanning
      ensures txnId == Trim(decoded)
      ensures ChooseId(Trim(decoded), old(scannerSawId)) != [] ==>
                && verifyResult == Some(Answer(store, ChooseId(Trim(decoded), old(scannerSawId)), reach, secret))
                && !isVerifying
                && isScanning == (old(isScanning) && !old(scannerSawScanning))
      ensures ChooseId(Trim(decoded), old(scannerSawId)) == [] ==>
                && verifyResult == old(verifyResult) && isVerifying == old(isVerifying)
                && isScanning == old(isScanning)
    {
      var cleanText := Trim(decoded);
      txnId := cleanText;
      HandleVerify(cleanText, scannerSawId, scannerSawScanning, store, reach, secret);
    }

    /** `closeVerifyModal`: the scanner stops, the modal closes, the id and answer clear. */
    method CloseModal()
      modifies this`isScanning, this`modalOpen, this`txnId, this`verifyResult
      ensures !isScanning && !modalOpen && txnId == [] && verifyResult == None
    {
      isScanning := false;
      modalOpen := false;
      txnId := [];
      verifyResult := None;
    }
  }

  /** A scan whose text is not blank verifies exactly that text: trimming it again on the
      way to the cloud changes nothing. */
  lemma ScannedTextVerifiedAsIs(decoded: string, seenId: string)
    requires !AllWhitespace(decoded)
    ensures Trim(ChooseId(Trim(decoded), seenId)) == Trim(decoded)
  {
    TrimIdempotent(decoded);
  }
}
