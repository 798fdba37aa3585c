/** The donation collection of the document database, as the application queries it:
    a sequence of documents in storage order, filtered by exact match on one field and
    cut to a result limit. */
module Store {
  import opened Wrappers
  import opened Strings
  import Crypto

  /** One stored donation document. `docId` is the database's own `$id`. `receiptId` is an
      integer attribute that legacy documents may leave null. A document without a
      `verificationHash` is one whose hash attribute is missing. */
  datatype Doc = Doc(
    docId: string,
    passId: string,
    transactionId: string,
    name: string,
    amount: int,
    receiptId: Option<int>,
    paymentMethod: string,
    description: string,
    transactionDate: string,
    verificationHash: Option<Crypto.Digest>,
    verified: bool)

  /** `Query.equal(field, value)`. */
  datatype Filter = PassIdIs(passId: string) | TransactionIdIs(transactionId: string) | ReceiptIdIs(receiptId: int)

  predicate Satisfies(d: Doc, f: Filter) {
    match f
    case PassIdIs(p) => d.passId == p
    case TransactionIdIs(t) => d.transactionId == t
    case ReceiptIdIs(n) => d.receiptId == Some(n)
  }

  /** Every document that satisfies `f`, in storage order. */
  function Select(docs: seq<Doc>, f: Filter): (r: seq<Doc>)
    ensures |r| <= |docs|
  {
    if docs == [] then []
    else (if Satisfies(docs[0], f) then [docs[0]] else []) + Select(docs[1..], f)
  }

  /** The selection holds exactly the documents that satisfy the filter; it is empty
      exactly when none does. */
  lemma {:induction false} SelectMembers(docs: seq<Doc>, f: Filter)
    ensures forall d :: d in Select(docs, f) <==> d in docs && Satisfies(d, f)
    ensures Select(docs, f) == [] <==> forall d :: d in docs ==> !Satisfies(d, f)
  {
    if docs != [] {
      SelectMembers(docs[1..], f);
      assert forall d :: d in docs <==> d == docs[0] || d in docs[1..];
    }
  }

  /** Selecting from a sequence with a first document `x`. */
  lemma SelectCons(x: Doc, rest: seq<Doc>, f: Filter)
    ensures Select([x] + rest, f) == (if Satisfies(x, f) then [x] else []) + Select(rest, f)
  {
    assert ([x] + rest)[1..] == rest;
  }

  /** A document appended to the collection is found after every earlier match. */
  lemma {:induction false} SelectAppend(docs: seq<Doc>, d: Doc, f: Filter)
    ensures Select(docs + [d], f) == Select(docs, f) + (if Satisfies(d, f) then [d] else [])
  {
    if docs == [] {
      assert docs + [d] == [d] + [];
      SelectCons(d, [], f);
    } else {
      var x, rest := docs[0], docs[1..];
      assert docs == [x] + rest;
      assert docs + [d] == [x] + (rest + [d]);
      SelectCons(x, rest + [d], f);
      SelectAppend(rest, d, f);
      SelectCons(x, rest, f);
    }
  }

  /** `listDocuments(database, collection, [filter, Query.limit(limit)]).documents`. */
  function ListDocuments(docs: seq<Doc>, f: Filter, limit: nat): (r: seq<Doc>)
    ensures |r| <= limit
    ensures r == [] <==> limit == 0 || forall d :: d in docs ==> !Satisfies(d, f)
    ensures forall d :: d in r ==> d in docs && Satisfies(d, f)
    ensures |r| <= |Select(docs, f)| && r == Select(docs, f)[..|r|]
  {
    var all := Select(docs, f);
    SelectMembers(docs, f);
    assert all != [] ==> all[0] in all;
    var r := Take(all, limit);
    assert forall d :: d in r ==> d in all;
    r
  }
}
