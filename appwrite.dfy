/** The donation-pass service of `services/appwrite.ts`: the receipt sequencer, the
    uniqueness re-check, pass persistence with its verification hash, two-stage pass
    verification, and the mapping of stored documents back to donations.

    The database is a value `store: seq<Doc>`. What the network decides (whether a query
    reaches the database, what a concurrently changing collection answers to the
    "top five receipt ids" query, whether a write succeeds) is given as parameters. */
module Appwrite {
  import opened Wrappers
  import opened Strings
  import opened Crypto
  import opened Types
  import opened Store

  const BaseReceiptId: int := 10001
  const FallbackBase: int := 10000
  const FallbackSpan: int := 900000
  const TopBatchSize: nat := 5
  const DefaultMaxRetries: nat := 5
  const MaxSaveRetries: nat := 3
  const DefaultSecret: string := "yagya-secret-2024"
  const LegacyPrefix: string := "YGYA-"
  const DefaultPaymentMethod: string := "mobile_payment"
  const ExhaustedMessage: string := "Failed to generate unique receipt ID after multiple attempts"

  // ================================================================ verification hash

  /** `VITE_VERIFICATION_SECRET || "yagya-secret-2024"`. */
  function VerificationSecret(configured: string): (s: string)
    ensures s != []
    ensures configured != [] ==> s == configured
  {
    if configured != [] then configured else DefaultSecret
  }

  /** The hashed text `${passId}:${amount}:${timestamp}:${secret}`. */
  function Payload(passId: string, amount: int, timestamp: string, secret: string): string {
    passId + ":" + IntToString(amount) + ":" + timestamp + ":" + secret
  }

  /** bcrypt reads at most this many bytes of its input and ignores the rest. */
  const BcryptMaxBytes: nat := 72

  /** The part of a payload bcrypt hashes: its first 72 bytes. The payloads are ASCII (a
      UUID, decimal digits, an ISO date), so one character is one byte. */
  function BcryptInput(payload: string): string {
    Take(payload, BcryptMaxBytes)
  }

  /** `generateVerificationHash`: a salted bcrypt hash of the payload, which verifies
      against the payload's first 72 bytes. */
  function GenerateVerificationHash(passId: string, amount: int, timestamp: string, secret: string, salt: nat): (d: Digest)
    ensures Matches(BcryptInput(Payload(passId, amount, timestamp, secret)), d)
  {
    Hash(BcryptInput(Payload(passId, amount, timestamp, secret)), salt)
  }

  // ================================================================ receipt sequencer

  /** What one attempt's "top five receipt ids, descending" query returned: the query
      failed, or a batch of `receiptId` values (null for a document without one). */
  datatype Probe = Unreachable | Batch(top: seq<Option<int>>)

  datatype Proposal = Fresh(id: int) | Collision

  /** What one successful attempt makes of its batch: the base id when the collection is
      empty or its top id is null, otherwise top + 1 unless that value is already in the
      batch. */
  function Propose(top: seq<Option<int>>): (p: Proposal)
    ensures (top == [] || top[0].None?) ==> p == Fresh(BaseReceiptId)
    ensures top != [] && top[0].Some? ==>
              (p.Collision? <==> Some(top[0].value + 1) in top)
              && (p.Fresh? ==> p.id == top[0].value + 1)
  {
    if top != [] && top[0].Some? then
      var next := top[0].value + 1;
      if Some(next) in top then Collision else Fresh(next)
    else Fresh(BaseReceiptId)
  }

  /** A batch as the database returns it for `orderDesc("receiptId")`: numeric and in
      descending order. */
  predicate SortedDescending(top: seq<Option<int>>) {
    && (forall i :: 0 <= i < |top| ==> top[i].Some?)
    && (forall i, j :: 0 <= i < j < |top| ==> top[j].value <= top[i].value)
  }

  /** On a sorted batch the collision check can never fire: the result is the maximum + 1. */
  lemma SortedBatchProposesSuccessor(top: seq<Option<int>>)
    requires top != [] && SortedDescending(top)
    ensures Propose(top) == Fresh(top[0].value + 1)
  {
  }

  /** `generateFallbackReceiptId`: 10000 + (a random 32-bit word mod 900000). */
  function FallbackReceiptId(word: nat): (id: int)
    requires word < 0x1_0000_0000
    ensures FallbackBase <= id <= 909999
  {
    FallbackBase + word % FallbackSpan
  }

  /** The outcome of `getNextReceiptId`: the id, how many top-five queries were made, and
      whether the random fallback was used. */
  datatype Allocation = Allocation(id: int, queries: nat, degraded: bool)

  predicate AttemptFails(p: Probe) {
    p.Unreachable? || Propose(p.top).Collision?
  }

  /** The allocation the retry loop makes from attempt `attempt` on. A normal result
      comes from the last query made, and every earlier attempt failed or collided; the
      fallback is used only when every attempt failed or collided. */
  function NextReceiptId(probes: seq<Probe>, maxRetries: nat, word: nat, attempt: nat): (a: Allocation)
    requires maxRetries <= |probes| && word < 0x1_0000_0000 && attempt <= maxRetries
    ensures attempt <= a.queries <= maxRetries
    ensures a.degraded ==> FallbackBase <= a.id <= 909999 && a.id == FallbackReceiptId(word)
    ensures a.degraded ==> forall k :: attempt <= k < maxRetries ==> AttemptFails(probes[k])
    ensures !a.degraded ==> attempt < a.queries && probes[a.queries - 1].Batch?
                            && Propose(probes[a.queries - 1].top) == Fresh(a.id)
    ensures !a.degraded ==> forall k :: attempt <= k < a.queries - 1 ==> AttemptFails(probes[k])
    decreases maxRetries - attempt
  {
    if attempt == maxRetries then Allocation(FallbackReceiptId(word), maxRetries, true)
    else
      match probes[attempt]
      case Unreachable =>
        if attempt == maxRetries - 1 then Allocation(FallbackReceiptId(word), attempt + 1, true)
        else NextReceiptId(probes, maxRetries, word, attempt + 1)
      case Batch(top) =>
        match Propose(top)
        case Fresh(id) => Allocation(id, attempt + 1, false)
        case Collision => NextReceiptId(probes, maxRetries, word, attempt + 1)
  }

  /** `getNextReceiptId(maxRetries)`: a bounded retry loop that never throws. Attempt `k`
      sees `probes[k]`; `word` is the random value the fallback would use. */
  method GetNextReceiptId(probes: seq<Probe>, maxRetries: nat, word: nat) returns (a: Allocation)
    requires maxRetries <= |probes| && word < 0x1_0000_0000
    ensures a == NextReceiptId(probes, maxRetries, word, 0)
  {
    var attempt := 0;
    while attempt < maxRetries
      invariant attempt <= maxRetries
      invariant NextReceiptId(probes, maxRetries, word, attempt) == NextReceiptId(probes, maxRetries, word, 0)
      decreases maxRetries - attempt
    {
      match probes[attempt] {
        case Unreachable =>
          if attempt == maxRetries - 1 {
            return Allocation(FallbackReceiptId(word), attempt + 1, true);
          }
        case Batch(top) =>
          if |top| > 0 && top[0].Some? {
            var nextId := top[0].value + 1;
            var collision := Some(nextId) in top;
            if !collision {
              return Allocation(nextId, attempt + 1, false);
            }
          } else {
            return Allocation(BaseReceiptId, attempt + 1, false);
          }
      }
      attempt := attempt + 1;
    }
    return Allocation(FallbackReceiptId(word), maxRetries, true);
  }

  /** An empty collection, or a top document without a receipt id, gives 10001 on the
      first query. */
  lemma EmptyCollectionGivesBase(probes: seq<Probe>, maxRetries: nat, word: nat)
    requires 1 <= maxRetries <= |probes| && word < 0x1_0000_0000
    requires probes[0].Batch? && (probes[0].top == [] || probes[0].top[0].None?)
    ensures NextReceiptId(probes, maxRetries, word, 0) == Allocation(BaseReceiptId, 1, false)
  {
  }

  /** When the first query answers with a sorted batch whose maximum is `m`, the id is
      `m + 1`, after one query; it is at least 10001 whenever `m >= 10000`. */
  lemma SortedFirstBatchGivesSuccessor(probes: seq<Probe>, maxRetries: nat, word: nat)
    requires 1 <= maxRetries <= |probes| && word < 0x1_0000_0000
    requires probes[0].Batch? && probes[0].top != [] && SortedDescending(probes[0].top)
    ensures var a := NextReceiptId(probes, maxRetries, word, 0);
            a == Allocation(probes[0].top[0].value + 1, 1, false)
            && (probes[0].top[0].value >= FallbackBase ==> a.id >= BaseReceiptId)
  {
    SortedBatchProposesSuccessor(probes[0].top);
  }

  // ================================================================ uniqueness check

  /** `isReceiptIdUnique`: true when no stored document has this receipt id, and also
      (failing open) when the query does not reach the database. */
  function IsReceiptIdUnique(store: seq<Doc>, reachable: bool, receiptId: int): (unique: bool)
    ensures unique <==> !reachable || forall d :: d in store ==> d.receiptId != Some(receiptId)
  {
    if !reachable then true
    else |ListDocuments(store, ReceiptIdIs(receiptId), 1)| == 0
  }

  // ================================================================ persistence

  /** The document `saveDonationDetails` writes for a donation. */
  function BuildRecord(donation: Donation, docId: string, hash: Digest, now: string): (doc: Doc)
    ensures doc.verified && doc.verificationHash == Some(hash)
    ensures doc.passId == donation.passId && doc.amount == donation.amount
    ensures doc.transactionId == donation.transactionId
    ensures doc.docId == docId && doc.verified && doc.description == donation.purpose.GetOr("")
    ensures doc.name != [] && doc.paymentMethod != []
    ensures donation.donorName != [] ==> doc.name == donation.donorName
    ensures donation.donorName == [] ==> doc.name == "undefined"
    ensures donation.paymentMethod != [] ==> doc.paymentMethod == donation.paymentMethod
    ensures donation.paymentMethod == [] ==> doc.paymentMethod == DefaultPaymentMethod
    ensures donation.timestamp != [] ==> doc.transactionDate == donation.timestamp
    ensures donation.timestamp == [] ==> doc.transactionDate == now
    ensures now != [] ==> doc.transactionDate != []
    ensures doc.receiptId == Some(donation.receiptId.GetOr(0))
  {
    Doc(
      docId := docId,
      passId := donation.passId,
      transactionId := donation.transactionId,
      name := if donation.donorName != [] then donation.donorName else "undefined",
      amount := donation.amount,
      receiptId := Some(donation.receiptId.GetOr(0)),
      paymentMethod := if donation.paymentMethod != [] then donation.paymentMethod else DefaultPaymentMethod,
      description := donation.purpose.GetOr(""),
      transactionDate := if donation.timestamp != [] then donation.timestamp else now,
      verificationHash := Some(hash),
      verified := true)
  }

  /** The view `getNextReceiptId` has of the collection during one re-allocation. */
  datatype AllocationInput = AllocationInput(probes: seq<Probe>, word: nat)

  /** Everything outside the code that one `saveDonationDetails` call depends on: the
      secret, the hash salt, the id the database gives the new document, the clock
      (used when the donation has no timestamp), whether the `k`-th uniqueness query
      reaches the database, the collection as seen by the `k`-th re-allocation, and the
      error `createDocument` throws, if any. */
  datatype SaveEnv = SaveEnv(
    secret: string,
    salt: nat,
    docId: string,
    now: string,
    checkReachable: seq<bool>,
    reallocations: seq<AllocationInput>,
    writeError: Option<string>)

  predicate ValidEnv(env: SaveEnv) {
    && |env.checkReachable| > MaxSaveRetries
    && |env.reallocations| >= MaxSaveRetries
    && forall k :: 0 <= k < |env.reallocations| ==>
         DefaultMaxRetries <= |env.reallocations[k].probes| && env.reallocations[k].word < 0x1_0000_0000
  }

  datatype SaveOutcome = Saved(doc: Doc) | SaveFailed(message: string)

  /** The result of a save: the outcome, the donation as the call left it (the source
      rewrites `receiptId` and `transactionId` of the caller's object in place), the
      collection afterwards, and the number of uniqueness checks made. */
  datatype SaveRun = SaveRun(outcome: SaveOutcome, donation: Donation, store: seq<Doc>, checks: nat)

  /** The donation after a re-allocation to `id`. */
  function Reallocated(donation: Donation, id: int): Donation {
    donation.(receiptId := Some(id), transactionId := LegacyPrefix + IntToString(id))
  }

  /** What `saveDonationDetails(donation, retryCount)` does. At most `4 - retryCount`
      uniqueness checks; the collection gains exactly the saved document or nothing; the
      saved document carries a hash that verifies against the donation's own pass id,
      amount and timestamp, and the receipt and transaction ids the call left on it. */
  function Save(store: seq<Doc>, donation: Donation, retryCount: nat, env: SaveEnv): (run: SaveRun)
    requires ValidEnv(env) && retryCount <= MaxSaveRetries && donation.receiptId.Some?
    ensures 1 <= run.checks <= MaxSaveRetries + 1 - retryCount
    ensures run.outcome.Saved? ==> run.store == store + [run.outcome.doc]
    ensures run.outcome.SaveFailed? ==> run.store == store
    ensures run.outcome.Saved? ==>
              var doc := run.outcome.doc;
              && doc.verified && doc.verificationHash.Some?
              && doc.passId == donation.passId && doc.amount == donation.amount
              && doc.receiptId == run.donation.receiptId
              && doc.transactionId == run.donation.transactionId
              && Matches(BcryptInput(Payload(donation.passId, donation.amount, donation.timestamp, env.secret)),
                         doc.verificationHash.value)
    decreases MaxSaveRetries - retryCount
  {
    if !IsReceiptIdUnique(store, env.checkReachable[retryCount], donation.receiptId.value) then
      if retryCount < MaxSaveRetries then
        var input := env.reallocations[retryCount];
        var a := NextReceiptId(input.probes, DefaultMaxRetries, input.word, 0);
        var next := Reallocated(donation, a.id);
        var run := Save(store, next, retryCount + 1, env);
        run.(checks := run.checks + 1)
      else
        SaveRun(SaveFailed(ExhaustedMessage), donation, store, 1)
    else
      var hash := GenerateVerificationHash(donation.passId, donation.amount, donation.timestamp, env.secret, env.salt);
      var doc := BuildRecord(donation, env.docId, hash, env.now);
      match env.writeError
      case None => SaveRun(Saved(doc), donation, store + [doc], 1)
      case Some(message) => SaveRun(SaveFailed(message), donation, store, 1)
  }

  /** Only `receiptId` and `transactionId` of the caller's donation can change, and only
      to a re-allocated id and that id with the `YGYA-` prefix: a receipt whose id
      collided is shown, and retried, under a `YGYA-` id. */
  lemma {:induction false} SaveOnlyReallocates(store: seq<Doc>, donation: Donation, retryCount: nat, env: SaveEnv)
    requires ValidEnv(env) && retryCount <= MaxSaveRetries && donation.receiptId.Some?
    ensures var run := Save(store, donation, retryCount, env);
            run.donation.receiptId.Some?
            && (run.donation == donation || run.donation == Reallocated(donation, run.donation.receiptId.value))
            && (run.donation != donation ==>
                  run.donation.transactionId == LegacyPrefix + IntToString(run.donation.receiptId.value))
    decreases MaxSaveRetries - retryCount
  {
    if !IsReceiptIdUnique(store, env.checkReachable[retryCount], donation.receiptId.value) && retryCount < MaxSaveRetries {
      var input := env.reallocations[retryCount];
      var a := NextReceiptId(input.probes, DefaultMaxRetries, input.word, 0);
      var next := Reallocated(donation, a.id);
      SaveOnlyReallocates(store, next, retryCount + 1, env);
      var run := Save(store, next, retryCount + 1, env);
      if run.donation != next {
        assert Reallocated(next, run.donation.receiptId.value) == Reallocated(donation, run.donation.receiptId.value);
      }
    }
  }

  /** `saveDonationDetails(donation, retryCount)`: re-check the receipt id, re-allocate
      and recurse on a collision (at most three times), then hash and write the record. */
  method SaveDonationDetails(store: seq<Doc>, donation: Donation, retryCount: nat, env: SaveEnv)
    returns (run: SaveRun)
    requires ValidEnv(env) && retryCount <= MaxSaveRetries && donation.receiptId.Some?
    ensures run == Save(store, donation, retryCount, env)
    decreases MaxSaveRetries - retryCount
  {
    var isUnique := IsReceiptIdUnique(store, env.checkReachable[retryCount], donation.receiptId.value);
    if !isUnique {
      if retryCount < MaxSaveRetries {
        var input := env.reallocations[retryCount];
        var a := GetNextReceiptId(input.probes, DefaultMaxRetries, input.word);
        var updated := donation.(receiptId := Some(a.id));
        updated := updated.(transactionId := LegacyPrefix + IntToString(a.id));
        assert updated == Reallocated(donation, a.id);
        run := SaveDonationDetails(store, updated, retryCount + 1, env);
        run := run.(checks := run.checks + 1);
        return;
      } else {
        return SaveRun(SaveFailed(ExhaustedMessage), donation, store, 1);
      }
    }
    var verificationHash := GenerateVerificationHash(donation.passId, donation.amount, donation.timestamp, env.secret, env.salt);
    var doc := BuildRecord(donation, env.docId, verificationHash, env.now);
    match env.writeError {
      case None => run := SaveRun(Saved(doc), donation, store + [doc], 1);
      case Some(message) => run := SaveRun(SaveFailed(message), donation, store, 1);
    }
  }

  /** When every uniqueness query reaches the database, a saved document's receipt id is
      held by no document stored before it. */
  lemma {:induction false} SavedReceiptIdIsUnique(store: seq<Doc>, donation: Donation, retryCount: nat, env: SaveEnv)
    requires ValidEnv(env) && retryCount <= MaxSaveRetries && donation.receiptId.Some?
    requires forall k :: retryCount <= k < |env.checkReachable| ==> env.checkReachable[k]
    ensures var run := Save(store, donation, retryCount, env);
            run.outcome.Saved? ==> forall d :: d in store ==> d.receiptId != run.outcome.doc.receiptId
    decreases MaxSaveRetries - retryCount
  {
    var run := Save(store, donation, retryCount, env);
    if IsReceiptIdUnique(store, env.checkReachable[retryCount], donation.receiptId.value) {
      assert forall d :: d in store ==> d.receiptId != donation.receiptId;
      assert run.outcome.Saved? ==> run.outcome.doc.receiptId == donation.receiptId;
    } else if retryCount < MaxSaveRetries {
      var input := env.reallocations[retryCount];
      var a := NextReceiptId(input.probes, DefaultMaxRetries, input.word, 0);
      var next := Reallocated(donation, a.id);
      SavedReceiptIdIsUnique(store, next, retryCount + 1, env);
      assert run.outcome == Save(store, next, retryCount + 1, env).outcome;
    }
  }

  /** The exhaustion error is raised only after four colliding checks (from a first call)
      and never when the first check passes. */
  lemma ExhaustionNeedsEveryCheckToCollide(store: seq<Doc>, donation: Donation, retryCount: nat, env: SaveEnv)
    requires ValidEnv(env) && retryCount <= MaxSaveRetries && donation.receiptId.Some?
    requires env.writeError != Some(ExhaustedMessage)
    ensures var run := Save(store, donation, retryCount, env);
            run.outcome == SaveFailed(ExhaustedMessage) ==>
              run.checks == MaxSaveRetries + 1 - retryCount && run.store == store
              && run.donation.receiptId.Some?
              && !IsReceiptIdUnique(store, env.checkReachable[MaxSaveRetries], run.donation.receiptId.value)
  {
    ExhaustionCountsEveryCheck(store, donation, retryCount, env);
    ExhaustionFollowsLastCollision(store, donation, retryCount, env);
  }

  /** An exhausted save made one check per remaining attempt. */
  lemma {:induction false} ExhaustionCountsEveryCheck(store: seq<Doc>, donation: Donation, retryCount: nat, env: SaveEnv)
    requires ValidEnv(env) && retryCount <= MaxSaveRetries && donation.receiptId.Some?
    requires env.writeError != Some(ExhaustedMessage)
    ensures var run := Save(store, donation, retryCount, env);
            run.outcome == SaveFailed(ExhaustedMessage) ==> run.checks == MaxSaveRetries + 1 - retryCount
    decreases MaxSaveRetries - retryCount
  {
    if !IsReceiptIdUnique(store, env.checkReachable[retryCount], donation.receiptId.value) && retryCount < MaxSaveRetries {
      var input := env.reallocations[retryCount];
      var a := NextReceiptId(input.probes, DefaultMaxRetries, input.word, 0);
      ExhaustionCountsEveryCheck(store, Reallocated(donation, a.id), retryCount + 1, env);
    }
  }

  /** An exhausted save ends with the donation holding a receipt id that the last check
      found taken. */
  lemma {:induction false} ExhaustionFollowsLastCollision(store: seq<Doc>, donation: Donation, retryCount: nat, env: SaveEnv)
    requires ValidEnv(env) && retryCount <= MaxSaveRetries && donation.receiptId.Some?
    requires env.writeError != Some(ExhaustedMessage)
    ensures var run := Save(store, donation, retryCount, env);
            run.outcome == SaveFailed(ExhaustedMessage) ==>
              && run.donation.receiptId.Some?
              && !IsReceiptIdUnique(store, env.checkReachable[MaxSaveRetries], run.donation.receiptId.value)
    decreases MaxSaveRetries - retryCount
  {
    if !IsReceiptIdUnique(store, env.checkReachable[retryCount], donation.receiptId.value) && retryCount < MaxSaveRetries {
      var input := env.reallocations[retryCount];
      var a := NextReceiptId(input.probes, DefaultMaxRetries, input.word, 0);
      ExhaustionFollowsLastCollision(store, Reallocated(donation, a.id), retryCount + 1, env);
    }
  }

  // ================================================================ verification

  datatype VerifyResult = VerifyResult(valid: bool, message: string, data: Option<Doc>)

  const NotFoundResult := VerifyResult(false, "Pass not found in database", None)
  const FailedResult := VerifyResult(false, "Verification failed", None)

  function TamperedResult(doc: Doc): VerifyResult {
    VerifyResult(false, "Pass has been tampered with", Some(doc))
  }

  function VerifiedResult(doc: Doc): VerifyResult {
    VerifyResult(true, "Pass verified successfully", Some(doc))
  }

  /** Which of the two lookup queries reach the database. */
  datatype Reach = Reach(byPassId: bool, byTransactionId: bool)

  /** `transactionDate.replace('+00:00', 'Z')`: the database may hand back an ISO date with
      a `+00:00` offset where the client wrote `Z`. */
  function NormalizeTimestamp(t: string): string {
    ReplaceFirst(t, "+00:00", "Z")
  }

  /** The two-stage lookup: the first document whose pass id is `id`, otherwise the first
      whose transaction id is `id`. */
  function Locate(store: seq<Doc>, id: string): (r: Option<Doc>)
    ensures r.Some? ==> r.value in store
    ensures r.Some? ==> r.value.passId == id
                        || (r.value.transactionId == id && forall d :: d in store ==> d.passId != id)
    ensures r.None? <==> forall d :: d in store ==> d.passId != id && d.transactionId != id
  {
    var byPass := ListDocuments(store, PassIdIs(id), 1);
    if byPass != [] then Some(byPass[0])
    else
      var byTxn := ListDocuments(store, TransactionIdIs(id), 1);
      if byTxn != [] then Some(byTxn[0]) else None
  }

  /** A document's hash verifies against (the first 72 bytes of) its own pass id, amount
      and normalised date, with the secret. */
  predicate Authentic(doc: Doc, secret: string) {
    && doc.verificationHash.Some?
    && Matches(BcryptInput(Payload(doc.passId, doc.amount, NormalizeTimestamp(doc.transactionDate), secret)),
               doc.verificationHash.value)
  }

  /** The answer when both lookups reach the database: not found, a failure (a document
      without a hash makes `compare` throw), tampered (with the document), or verified. */
  function Verdict(store: seq<Doc>, id: string, secret: string): (r: VerifyResult)
    ensures r.valid <==> Locate(store, id).Some? && Authentic(Locate(store, id).value, secret)
    ensures r.valid ==> r == VerifiedResult(Locate(store, id).value)
    ensures Locate(store, id).None? ==> r == NotFoundResult
    ensures Locate(store, id).Some? && Locate(store, id).value.verificationHash.None? ==> r == FailedResult
    ensures Locate(store, id).Some? && Locate(store, id).value.verificationHash.Some?
              && !Authentic(Locate(store, id).value, secret) ==>
              r == TamperedResult(Locate(store, id).value)
  {
    match Locate(store, id)
    case None => NotFoundResult
    case Some(doc) =>
      if doc.verificationHash.None? then FailedResult
      else if Authentic(doc, secret) then VerifiedResult(doc)
      else TamperedResult(doc)
  }

  /** A lookup query that does not reach the database is hit before an answer. */
  predicate LookupFails(store: seq<Doc>, id: string, reach: Reach) {
    !reach.byPassId || (!reach.byTransactionId && forall d :: d in store ==> d.passId != id)
  }

  /** What verification answers for `id`: the generic failure when a lookup it needs
      does not reach the database, otherwise the verdict. */
  function CloudVerdict(store: seq<Doc>, id: string, reach: Reach, secret: string): (r: VerifyResult)
    ensures r.valid ==> Locate(store, id).Some? && Authentic(Locate(store, id).value, secret)
                        && r == VerifiedResult(Locate(store, id).value)
    ensures LookupFails(store, id, reach) ==> r == FailedResult
    ensures !LookupFails(store, id, reach) ==> r == Verdict(store, id, secret)
    ensures reach.byPassId && reach.byTransactionId ==> r == Verdict(store, id, secret)
    ensures !reach.byPassId ==> r == FailedResult
  {
    if LookupFails(store, id, reach) then FailedResult else Verdict(store, id, secret)
  }

  /** `verifyFromCloud(searchId)`. It never throws: the input is trimmed, and a failed
      query gives the generic failure result. */
  method VerifyFromCloud(store: seq<Doc>, searchId: string, reach: Reach, secret: string) returns (r: VerifyResult)
    ensures r == CloudVerdict(store, Trim(searchId), reach, secret)
  {
    var trimmedId := Trim(searchId);
    if !reach.byPassId {
      return FailedResult;
    }
    var response := ListDocuments(store, PassIdIs(trimmedId), 1);
    if |response| == 0 {
      if !reach.byTransactionId {
        return FailedResult;
      }
      response := ListDocuments(store, TransactionIdIs(trimmedId), 1);
    }
    if |response| == 0 {
      return NotFoundResult;
    }
    var doc := response[0];
    if doc.verificationHash.None? {
      return FailedResult;
    }
    var normalizedTimestamp := NormalizeTimestamp(doc.transactionDate);
    var payload := Payload(doc.passId, doc.amount, normalizedTimestamp, secret);
    var isValid := Matches(BcryptInput(payload), doc.verificationHash.value);
    if !isValid {
      return TamperedResult(doc);
    }
    return VerifiedResult(doc);
  }

  // ---------------------------------------------------------------- properties of verification

  /** "+00:00" cannot occur in a text that has no '+'. */
  lemma NoPlusNoOffset(t: string)
    requires '+' !in t
    ensures NormalizeTimestamp(t) == t
  {
    forall j | 0 <= j <= |t| ensures !OccursAt(t, "+00:00", j) {
      if j + 6 <= |t| {
        assert t[j..j + 6][0] == t[j];
      }
    }
  }

  /** A pass saved with an ISO timestamp (no '+') and a pass id that no stored document
      has verifies immediately afterwards by its pass id. */
  lemma SaveThenVerify(store: seq<Doc>, donation: Donation, env: SaveEnv)
    requires ValidEnv(env) && donation.receiptId.Some?
    requires donation.timestamp != [] && '+' !in donation.timestamp
    requires forall d :: d in store ==> d.passId != donation.passId
    ensures var run := Save(store, donation, 0, env);
            run.outcome.Saved? ==>
              Verdict(run.store, donation.passId, env.secret) == VerifiedResult(run.outcome.doc)
  {
    var run := Save(store, donation, 0, env);
    if run.outcome.Saved? {
      var doc := run.outcome.doc;
      SavedDateIsTimestamp(store, donation, 0, env);
      NoPlusNoOffset(donation.timestamp);
      assert Authentic(doc, env.secret);
      LocateAppended(store, doc);
    }
  }

  /** A document appended under a pass id no earlier document has is what a lookup by
      that pass id finds. */
  lemma LocateAppended(store: seq<Doc>, doc: Doc)
    requires forall d :: d in store ==> d.passId != doc.passId
    ensures Locate(store + [doc], doc.passId) == Some(doc)
  {
    SelectAppend(store, doc, PassIdIs(doc.passId));
    SelectMembers(store, PassIdIs(doc.passId));
    assert Select(store + [doc], PassIdIs(doc.passId)) == [doc];
  }

  lemma {:induction false} SavedDateIsTimestamp(store: seq<Doc>, donation: Donation, retryCount: nat, env: SaveEnv)
    requires ValidEnv(env) && retryCount <= MaxSaveRetries && donation.receiptId.Some?
    requires donation.timestamp != []
    ensures var run := Save(store, donation, retryCount, env);
            run.outcome.Saved? ==> run.outcome.doc.transactionDate == donation.timestamp
    decreases MaxSaveRetries - retryCount
  {
    if !IsReceiptIdUnique(store, env.checkReachable[retryCount], donation.receiptId.value) && retryCount < MaxSaveRetries {
      var input := env.reallocations[retryCount];
      var a := NextReceiptId(input.probes, DefaultMaxRetries, input.word, 0);
      SavedDateIsTimestamp(store, Reallocated(donation, a.id), retryCount + 1, env);
    }
  }

  /** The database rewriting a stored `...Z` date as `...+00:00` does not break
      verification: normalisation restores the hashed text. */
  lemma OffsetRewriteIsTolerated(prefix: string)
    requires '+' !in prefix
    ensures NormalizeTimestamp(prefix + "+00:00") == prefix + "Z"
  {
    var t := prefix + "+00:00";
    assert OccursAt(t, "+00:00", |prefix|);
    forall j | 0 <= j < |prefix| ensures !OccursAt(t, "+00:00", j) {
      assert t[j] == prefix[j];
    }
    match IndexOf(t, "+00:00")
    case None =>
    case Some(i) =>
      assert i == |prefix|;
      assert t[..i] == prefix;
      assert t[i + 6..] == [];
  }

  /** Two texts that agree on their first `n` characters, and hold fields of one length
      at one offset inside those `n` characters, hold the same field. */
  lemma SameLengthFieldInPrefix(head: string, x1: string, x2: string, rest1: string, rest2: string, n: nat)
    requires |x1| == |x2| && |head| + |x1| <= n
    requires Take(head + x1 + rest1, n) == Take(head + x2 + rest2, n)
    ensures x1 == x2
  {
    var p1, p2 := head + x1 + rest1, head + x2 + rest2;
    forall k | 0 <= k < |x1| ensures x1[k] == x2[k] {
      assert p1[|head| + k] == x1[k] && p2[|head| + k] == x2[k];
      assert Take(p1, n)[|head| + k] == Take(p2, n)[|head| + k];
    }
  }

  /** In the first `n` characters of `head + x + ":" + rest`, with `x` colon-free and
      ending inside them, the first ':' from offset `|head|` on ends `x`. */
  lemma ColonEndsField(head: string, x: string, rest: string, n: nat)
    requires ':' !in x && |head| + |x| < n
    ensures var t := Take(head + x + ":" + rest, n);
            |head| + |x| < |t| && t[|head| + |x|] == ':'
            && forall k :: |head| <= k < |head| + |x| ==> t[k] != ':'
  {
    var p := head + x + ":" + rest;
    assert p[|head| + |x|] == ':';
    forall k | |head| <= k < |head| + |x| ensures p[k] != ':' {
      assert p[k] == x[k - |head|];
    }
  }

  /** Two texts that agree on their first `n` characters, and hold colon-free fields
      ended by ':' at one offset inside those `n` characters, hold the same field. */
  lemma ColonEndedFieldInPrefix(head: string, x1: string, x2: string, rest1: string, rest2: string, n: nat)
    requires ':' !in x1 && ':' !in x2
    requires |head| + |x1| < n && |head| + |x2| < n
    requires Take(head + x1 + ":" + rest1, n) == Take(head + x2 + ":" + rest2, n)
    ensures x1 == x2
  {
    ColonEndsField(head, x1, rest1, n);
    ColonEndsField(head, x2, rest2, n);
    assert |x1| == |x2|;
    assert head + x1 + ":" + rest1 == head + x1 + (":" + rest1);
    assert head + x2 + ":" + rest2 == head + x2 + (":" + rest2);
    SameLengthFieldInPrefix(head, x1, x2, ":" + rest1, ":" + rest2, n);
  }

  /** Decimal text holds no ':'. */
  lemma NoColonInNumber(a: int)
    ensures ':' !in IntToString(a)
  {
    var s := IntToString(a);
    assert forall k :: 0 <= k < |s| ==> s[k] != ':';
  }

  /** Two payloads that differ only in the amount hash to different bcrypt inputs, as long
      as both amounts end inside the first 72 bytes. */
  lemma PayloadDeterminesAmount(passId: string, a1: int, a2: int, t: string, secret: string)
    requires |passId| + 1 + |IntToString(a1)| < BcryptMaxBytes && |passId| + 1 + |IntToString(a2)| < BcryptMaxBytes
    requires BcryptInput(Payload(passId, a1, t, secret)) == BcryptInput(Payload(passId, a2, t, secret))
    ensures a1 == a2
  {
    var head, rest := passId + ":", t + ":" + secret;
    assert Payload(passId, a1, t, secret) == head + IntToString(a1) + ":" + rest;
    assert Payload(passId, a2, t, secret) == head + IntToString(a2) + ":" + rest;
    NoColonInNumber(a1);
    NoColonInNumber(a2);
    ColonEndedFieldInPrefix(head, IntToString(a1), IntToString(a2), rest, rest, BcryptMaxBytes);
    IntToStringInjective(a1, a2);
  }

  /** Changing only the stored amount of an authentic document makes it fail verification,
      when the pass id and both amounts fit in the bytes bcrypt reads (a 36-character UUID
      leaves room for amounts of up to 34 characters). */
  lemma TamperedAmountDetected(doc: Doc, amount: int, secret: string)
    requires Authentic(doc, secret) && amount != doc.amount
    requires |doc.passId| + 1 + |IntToString(doc.amount)| < BcryptMaxBytes
    requires |doc.passId| + 1 + |IntToString(amount)| < BcryptMaxBytes
    ensures !Authentic(doc.(amount := amount), secret)
  {
    var t := NormalizeTimestamp(doc.transactionDate);
    if Authentic(doc.(amount := amount), secret) {
      PayloadDeterminesAmount(doc.passId, doc.amount, amount, t, secret);
    }
  }

  /** Two payloads that differ only in a pass id of one length hash to different bcrypt
      inputs, as long as the pass ids fit in the first 72 bytes. */
  lemma PayloadDeterminesPassId(p1: string, p2: string, amount: int, t: string, secret: string)
    requires |p1| == |p2| <= BcryptMaxBytes
    requires BcryptInput(Payload(p1, amount, t, secret)) == BcryptInput(Payload(p2, amount, t, secret))
    ensures p1 == p2
  {
    var tail := ":" + IntToString(amount) + ":" + t + ":" + secret;
    var q1, q2 := Payload(p1, amount, t, secret), Payload(p2, amount, t, secret);
    assert q1 == p1 + tail && q2 == p2 + tail;
    forall k | 0 <= k < |p1| ensures p1[k] == p2[k] {
      assert q1[k] == p1[k] && q2[k] == p2[k];
      assert Take(q1, BcryptMaxBytes)[k] == Take(q2, BcryptMaxBytes)[k];
    }
  }

  /** Changing only the stored pass id of an authentic document to another of the same
      length (pass ids are 36-character UUIDs) makes it fail verification. */
  lemma TamperedPassIdDetected(doc: Doc, passId: string, secret: string)
    requires Authentic(doc, secret) && passId != doc.passId
    requires |passId| == |doc.passId| <= BcryptMaxBytes
    ensures !Authentic(doc.(passId := passId), secret)
  {
    var t := NormalizeTimestamp(doc.transactionDate);
    if Authentic(doc.(passId := passId), secret) {
      PayloadDeterminesPassId(doc.passId, passId, doc.amount, t, secret);
    }
  }

  /** Changing only the stored date of an authentic document makes it fail verification,
      unless both dates normalise to the same text, when both normalised dates have one
      length (ISO dates have 24 characters) and end inside the bytes bcrypt reads. */
  lemma TamperedDateDetected(doc: Doc, date: string, secret: string)
    requires Authentic(doc, secret)
    requires NormalizeTimestamp(date) != NormalizeTimestamp(doc.transactionDate)
    requires |NormalizeTimestamp(date)| == |NormalizeTimestamp(doc.transactionDate)|
    requires |doc.passId| + |IntToString(doc.amount)| + 2 + |NormalizeTimestamp(date)| <= BcryptMaxBytes
    ensures !Authentic(doc.(transactionDate := date), secret)
  {
    if Authentic(doc.(transactionDate := date), secret) {
      var head := doc.passId + ":" + IntToString(doc.amount) + ":";
      var t1, t2 := NormalizeTimestamp(doc.transactionDate), NormalizeTimestamp(date);
      assert Payload(doc.passId, doc.amount, t1, secret) == head + t1 + (":" + secret);
      assert Payload(doc.passId, doc.amount, t2, secret) == head + t2 + (":" + secret);
      SameLengthFieldInPrefix(head, t1, t2, ":" + secret, ":" + secret, BcryptMaxBytes);
    }
  }

  /** Only the part of the secret that falls inside the first 72 bytes is hashed: a
      document verifies under any other secret that starts the same way up to there. */
  lemma SecretBeyondBcryptInputIgnored(doc: Doc, secret: string, other: string, k: nat)
    requires Authentic(doc, secret)
    requires k <= |secret| && k <= |other| && secret[..k] == other[..k]
    requires |Payload(doc.passId, doc.amount, NormalizeTimestamp(doc.transactionDate), "")| + k >= BcryptMaxBytes
    ensures Authentic(doc, other)
  {
    var t := NormalizeTimestamp(doc.transactionDate);
    var h := Payload(doc.passId, doc.amount, t, "");
    var p1, p2 := Payload(doc.passId, doc.amount, t, secret), Payload(doc.passId, doc.amount, t, other);
    assert p1 == h + secret && p2 == h + other;
    forall i | 0 <= i < BcryptMaxBytes ensures p1[i] == p2[i] {
      if i >= |h| {
        assert secret[i - |h|] == secret[..k][i - |h|];
        assert other[i - |h|] == other[..k][i - |h|];
      }
    }
    assert BcryptInput(p1) == BcryptInput(p2);
  }

  /** With a 36-character pass id, a three-digit amount and a 24-character date, a pass
      made with the default secret verifies under its first six characters alone. */
  lemma DefaultSecretMostlyUnhashed(doc: Doc)
    requires Authentic(doc, DefaultSecret)
    requires |doc.passId| == 36 && 100 <= doc.amount <= 999
    requires |NormalizeTimestamp(doc.transactionDate)| == 24
    ensures Authentic(doc, "yagya-")
  {
    assert |IntToString(doc.amount)| == 3 by {
      assert NatToString(doc.amount) == NatToString(doc.amount / 10) + [DigitChar(doc.amount % 10)];
      assert NatToString(doc.amount / 10) == NatToString(doc.amount / 100) + [DigitChar(doc.amount / 10 % 10)];
    }
    assert DefaultSecret[..6] == "yagya-";
    SecretBeyondBcryptInputIgnored(doc, DefaultSecret, "yagya-", 6);
  }

  /** The hash covers only pass id, amount and date: rewriting a stored document's donor
      name, transaction id, receipt id, payment method or description goes undetected. */
  lemma UnhashedFieldsUnprotected(doc: Doc, name: string, transactionId: string, receiptId: Option<int>,
                                  paymentMethod: string, description: string, secret: string)
    requires Authentic(doc, secret)
    ensures Authentic(doc.(name := name, transactionId := transactionId, receiptId := receiptId,
                           paymentMethod := paymentMethod, description := description), secret)
  {
  }

  /** A document whose pass id and transaction id are each held by no other document,
      and whose transaction id is no document's pass id, gets the same verdict by either
      identifier. */
  lemma LookupPathsAgree(store: seq<Doc>, doc: Doc, secret: string)
    requires doc in store
    requires forall d :: d in store && d.passId == doc.passId ==> d == doc
    requires forall d :: d in store && d.transactionId == doc.transactionId ==> d == doc
    requires forall d :: d in store ==> d.passId != doc.transactionId
    ensures Locate(store, doc.passId) == Some(doc) == Locate(store, doc.transactionId)
    ensures Verdict(store, doc.passId, secret) == Verdict(store, doc.transactionId, secret)
  {
  }

  // ================================================================ reading the ledger

  /** `${doc.receiptId}` for a receipt id that may be null. */
  function ReceiptText(r: Option<int>): string {
    match r
    case None => "null"
    case Some(n) => IntToString(n)
  }

  /** The donation `fetchAllDonations` makes of one stored document. */
  function ToDonation(doc: Doc): (d: Donation)
    ensures d.id == doc.docId && d.passId == doc.passId && d.amount == doc.amount
    ensures d.transactionId != [] && d.paymentMethod != [] && d.status == Success
  {
    Donation(
      id := doc.docId,
      donorName := doc.name,
      amount := doc.amount,
      purpose := Some(doc.description),
      timestamp := doc.transactionDate,
      transactionId := if doc.transactionId != [] then doc.transactionId else LegacyPrefix + ReceiptText(doc.receiptId),
      passId := doc.passId,
      receiptId := doc.receiptId,
      paymentMethod := if doc.paymentMethod != [] then doc.paymentMethod else DefaultPaymentMethod,
      status := Success)
  }

  /** `fetchAllDonations`: one donation per stored document, in storage order; an empty
      list when the query fails. */
  function FetchAllDonations(store: seq<Doc>, reachable: bool): (r: seq<Donation>)
    ensures |r| == if reachable then |store| else 0
    ensures forall i :: 0 <= i < |r| ==> r[i] == ToDonation(store[i])
  {
    if reachable then seq(|store|, i requires 0 <= i < |store| => ToDonation(store[i])) else []
  }

  /** A record written for a well-formed donation reads back as that donation, with the
      database's document id as its id. */
  lemma StoredRecordRoundTrip(d: Donation, docId: string, hash: Digest, now: string)
    requires d.donorName != [] && d.paymentMethod != [] && d.timestamp != [] && d.transactionId != []
    requires d.purpose.Some? && d.receiptId.Some? && d.receiptId.value != 0 && d.status == Success
    ensures ToDonation(BuildRecord(d, docId, hash, now)) == d.(id := docId)
  {
  }
}
