/** The `transactions` collection and the five storage operations on it
    (internal/items/storage/mongodb/transaction-storage.go). The collection
    is a map from object id to stored document plus the order in which
    documents were inserted, which the model takes as the scan order. */
module TransactionStorage {
  import opened Mongo
  import opened ObjectIds

  /** A stored transaction document. `created_at` is written on insert;
      `updated_at` only by an update; `deleted_at` only by a delete. */
  datatype TransactionDoc = TransactionDoc(
    userId: string,
    accountId: string,
    categoryId: string,
    amount: int,
    txType: string,
    description: string,
    date: string,
    createdAt: Time,
    updatedAt: Option<Time>,
    deletedAt: Option<Time>)

  datatype CreateTransactionRequest = CreateTransactionRequest(
    userId: string, accountId: string, categoryId: string,
    amount: int, txType: string, description: string, date: string)

  datatype GetTransactionsRequest = GetTransactionsRequest(
    userId: string, accountId: string, categoryId: string)

  datatype GetTransactionByIdRequest = GetTransactionByIdRequest(id: string)

  datatype UpdateTransactionRequest = UpdateTransactionRequest(
    id: string, amount: int, txType: string, description: string, date: string)

  datatype DeleteTransactionRequest = DeleteTransactionRequest(id: string)

  /** `pb.TransactionResponse`; `updatedAt == None` is the empty string. */
  datatype TransactionResponse = TransactionResponse(
    id: string,
    userId: string,
    accountId: string,
    categoryId: string,
    amount: int,
    txType: string,
    description: string,
    date: string,
    createdAt: Time,
    updatedAt: Option<Time>)

  // ---------------------------------------------------------------------
  // Reading a stored document

  /** The stored document a response describes, given the `deleted_at`
      value that responses do not carry. */
  function Described(resp: TransactionResponse, deletedAt: Option<Time>): TransactionDoc
  {
    TransactionDoc(resp.userId, resp.accountId, resp.categoryId, resp.amount,
                   resp.txType, resp.description, resp.date,
                   resp.createdAt, resp.updatedAt, deletedAt)
  }

  /** The field-by-field conversion every read performs. Every field is cast
      unconditionally, so a document without `updated_at` cannot be read. */
  function DecodeTransaction(id: ObjectId, doc: TransactionDoc): (r: Result<TransactionResponse>)
    ensures r.Ok? <==> doc.updatedAt.Some?
    ensures r.Err? ==> r.error == BadCast("updated_at")
    ensures r.Ok? ==> FromHex(r.value.id) == Some(id)
    ensures r.Ok? ==> Described(r.value, doc.deletedAt) == doc
  {
    if doc.updatedAt.None? then Err(BadCast("updated_at"))
    else
      FromHexOfHex(id);
      Ok(TransactionResponse(Hex(id), doc.userId, doc.accountId, doc.categoryId,
                             doc.amount, doc.txType, doc.description, doc.date,
                             doc.createdAt, doc.updatedAt))
  }

  // ---------------------------------------------------------------------
  // The list filter

  datatype FilterKey = UserIdKey | AccountIdKey | CategoryIdKey

  /** One `bson.E` of the filter: equality of a field with a value. */
  datatype FilterTerm = FilterTerm(key: FilterKey, value: string)

  function Field(doc: TransactionDoc, key: FilterKey): string
  {
    match key
    case UserIdKey => doc.userId
    case AccountIdKey => doc.accountId
    case CategoryIdKey => doc.categoryId
  }

  function Requested(req: GetTransactionsRequest, key: FilterKey): string
  {
    match key
    case UserIdKey => req.userId
    case AccountIdKey => req.accountId
    case CategoryIdKey => req.categoryId
  }

  predicate Satisfies(doc: TransactionDoc, filter: seq<FilterTerm>)
  {
    forall t :: t in filter ==> Field(doc, t.key) == t.value
  }

  /** The filter `GetTransactions` builds: one equality per non-empty
      request field, in the order user, account, category. */
  function ListFilter(req: GetTransactionsRequest): (filter: seq<FilterTerm>)
    ensures forall t :: t in filter ==> t.value != "" && t.value == Requested(req, t.key)
    ensures forall k :: Requested(req, k) != "" <==> FilterTerm(k, Requested(req, k)) in filter
  {
    KeyTerm(req, UserIdKey) + KeyTerm(req, AccountIdKey) + KeyTerm(req, CategoryIdKey)
  }

  /** The filter entry a request field contributes, if any. */
  function KeyTerm(req: GetTransactionsRequest, key: FilterKey): seq<FilterTerm>
  {
    if Requested(req, key) != "" then [FilterTerm(key, Requested(req, key))] else []
  }

  /** What the filter means: an empty request field constrains nothing, a
      non-empty one demands equality. Soft deletion plays no part. */
  lemma ListFilterMeaning(req: GetTransactionsRequest, doc: TransactionDoc)
    ensures Satisfies(doc, ListFilter(req)) <==>
              (req.userId == "" || doc.userId == req.userId)
              && (req.accountId == "" || doc.accountId == req.accountId)
              && (req.categoryId == "" || doc.categoryId == req.categoryId)
  {
    var f := ListFilter(req);
    if req.userId != "" { assert FilterTerm(UserIdKey, req.userId) in f; }
    if req.accountId != "" { assert FilterTerm(AccountIdKey, req.accountId) in f; }
    if req.categoryId != "" { assert FilterTerm(CategoryIdKey, req.categoryId) in f; }
  }

  function FilterSelector(filter: seq<FilterTerm>): TransactionDoc -> bool
  {
    doc => Satisfies(doc, filter)
  }

  /** The documents a list request selects. */
  function Selector(req: GetTransactionsRequest): TransactionDoc -> bool
  {
    FilterSelector(ListFilter(req))
  }

  /** The successive appends that build the list filter. */
  method BuildListFilter(req: GetTransactionsRequest) returns (filter: seq<FilterTerm>)
    ensures filter == ListFilter(req)
  {
    filter := [];
    if req.userId != "" {
      filter := filter + [FilterTerm(UserIdKey, req.userId)];
    }
    assert filter == KeyTerm(req, UserIdKey);
    if req.accountId != "" {
      filter := filter + [FilterTerm(AccountIdKey, req.accountId)];
    }
    assert filter == KeyTerm(req, UserIdKey) + KeyTerm(req, AccountIdKey);
    if req.categoryId != "" {
      filter := filter + [FilterTerm(CategoryIdKey, req.categoryId)];
    }
    assert filter == ListFilter(req);
  }

  // ---------------------------------------------------------------------
  // The update document

  /** One entry of the `$set` document `UpdateTransaction` sends. */
  datatype SetField =
    | SetAmount(amount: int)
    | SetType(txType: string)
    | SetDescription(description: string)
    | SetDate(date: string)
    | SetUpdatedAt(at: Time)

  /** One `$set` entry changes only the field it names; identity,
      `created_at` and the deletion mark are never among them. */
  function ApplyField(doc: TransactionDoc, f: SetField): (r: TransactionDoc)
    ensures r.userId == doc.userId && r.accountId == doc.accountId && r.categoryId == doc.categoryId
    ensures r.createdAt == doc.createdAt && r.deletedAt == doc.deletedAt
    ensures !f.SetAmount? ==> r.amount == doc.amount
    ensures !f.SetType? ==> r.txType == doc.txType
    ensures !f.SetDescription? ==> r.description == doc.description
    ensures !f.SetDate? ==> r.date == doc.date
    ensures !f.SetUpdatedAt? ==> r.updatedAt == doc.updatedAt
  {
    match f
    case SetAmount(a) => doc.(amount := a)
    case SetType(t) => doc.(txType := t)
    case SetDescription(d) => doc.(description := d)
    case SetDate(d) => doc.(date := d)
    case SetUpdatedAt(t) => doc.(updatedAt := Some(t))
  }

  predicate NothingToUpdate(req: UpdateTransactionRequest)
  {
    req.amount == 0 && req.txType == "" && req.description == "" && req.date == ""
  }

  /** The `$set` fields: non-zero amount, non-empty type, description and
      date, then `updated_at` when anything was selected. */
  function UpdateFields(req: UpdateTransactionRequest, now: Time): (fields: seq<SetField>)
    ensures fields == [] <==> NothingToUpdate(req)
    ensures SetUpdatedAt(now) in fields <==> !NothingToUpdate(req)
    ensures forall f :: f in fields ==>
              || (f.SetAmount? && f.amount == req.amount && req.amount != 0)
              || (f.SetType? && f.txType == req.txType && req.txType != "")
              || (f.SetDescription? && f.description == req.description && req.description != "")
              || (f.SetDate? && f.date == req.date && req.date != "")
              || f == SetUpdatedAt(now)
  {
    var selected := Selected(req);
    selected + Step(|selected| > 0, SetUpdatedAt(now))
  }

  /** The request fields an update selects, in the order they are appended. */
  function Selected(req: UpdateTransactionRequest): seq<SetField>
  {
    Step(req.amount != 0, SetAmount(req.amount))
    + Step(req.txType != "", SetType(req.txType))
    + Step(req.description != "", SetDescription(req.description))
    + Step(req.date != "", SetDate(req.date))
  }

  /** The document after a non-empty update, field by field: each selected
      field takes the request's value, `updated_at` becomes `now`, and
      nothing else moves. */
  function Updated(doc: TransactionDoc, req: UpdateTransactionRequest, now: Time): (u: TransactionDoc)
    ensures u.updatedAt == Some(now)
    ensures req.amount != 0 ==> u.amount == req.amount
    ensures req.amount == 0 ==> u.amount == doc.amount
    ensures req.txType != "" ==> u.txType == req.txType
    ensures req.txType == "" ==> u.txType == doc.txType
    ensures req.description != "" ==> u.description == req.description
    ensures req.description == "" ==> u.description == doc.description
    ensures req.date != "" ==> u.date == req.date
    ensures req.date == "" ==> u.date == doc.date
  {
    TransactionDoc(
      doc.userId, doc.accountId, doc.categoryId,
      if req.amount != 0 then req.amount else doc.amount,
      if req.txType != "" then req.txType else doc.txType,
      if req.description != "" then req.description else doc.description,
      if req.date != "" then req.date else doc.date,
      doc.createdAt, Some(now), doc.deletedAt)
  }

  /** Sending the `$set` of `UpdateFields` to a document produces `Updated`. */
  lemma UpdateFieldsApply(doc: TransactionDoc, req: UpdateTransactionRequest, now: Time)
    requires !NothingToUpdate(req)
    ensures ApplyAll(ApplyField, doc, UpdateFields(req, now)) == Updated(doc, req, now)
  {
    var s1 := Step(req.amount != 0, SetAmount(req.amount));
    var s2 := Step(req.txType != "", SetType(req.txType));
    var s3 := Step(req.description != "", SetDescription(req.description));
    var s4 := Step(req.date != "", SetDate(req.date));
    // The document after each successive entry.
    var d1 := if req.amount != 0 then doc.(amount := req.amount) else doc;
    var d2 := if req.txType != "" then d1.(txType := req.txType) else d1;
    var d3 := if req.description != "" then d2.(description := req.description) else d2;
    var d4 := if req.date != "" then d3.(date := req.date) else d3;
    assert ApplyAll(ApplyField, doc, s1) == d1 by {
      ApplyStep(ApplyField, doc, [], req.amount != 0, SetAmount(req.amount));
      assert [] + s1 == s1;
    }
    assert ApplyAll(ApplyField, doc, s1 + s2) == d2 by {
      ApplyStep(ApplyField, doc, s1, req.txType != "", SetType(req.txType));
    }
    assert ApplyAll(ApplyField, doc, s1 + s2 + s3) == d3 by {
      ApplyStep(ApplyField, doc, s1 + s2, req.description != "", SetDescription(req.description));
    }
    var selected := s1 + s2 + s3 + s4;
    assert ApplyAll(ApplyField, doc, selected) == d4 by {
      ApplyStep(ApplyField, doc, s1 + s2 + s3, req.date != "", SetDate(req.date));
    }
    assert selected == Selected(req);
    assert UpdateFields(req, now) == selected + Step(true, SetUpdatedAt(now));
    ApplyStep(ApplyField, doc, selected, true, SetUpdatedAt(now));
    assert d4.(updatedAt := Some(now)) == Updated(doc, req, now);
  }

  /** An update never changes the owner, the account, the category, the
      creation time or the deletion mark, and it cannot reset the amount to
      zero or clear a string field. */
  lemma UpdatedKeepsIdentity(doc: TransactionDoc, req: UpdateTransactionRequest, now: Time)
    ensures var u := Updated(doc, req, now);
      && u.userId == doc.userId && u.accountId == doc.accountId
      && u.categoryId == doc.categoryId && u.createdAt == doc.createdAt
      && u.deletedAt == doc.deletedAt
      && (u.amount == 0 ==> doc.amount == 0)
      && (u.txType == "" ==> doc.txType == "")
      && (u.description == "" ==> doc.description == "")
      && (u.date == "" ==> doc.date == "")
  {
  }

  /** The document `CreateTransaction` inserts: the request fields and
      `created_at`; neither `updated_at` nor `deleted_at`. */
  function Inserted(req: CreateTransactionRequest, now: Time): (d: TransactionDoc)
    ensures CreateTransactionRequest(d.userId, d.accountId, d.categoryId, d.amount,
                                     d.txType, d.description, d.date) == req
    ensures d.createdAt == now && d.updatedAt.None? && d.deletedAt.None?
    ensures forall id :: DecodeTransaction(id, d) == Err(BadCast("updated_at"))
  {
    TransactionDoc(req.userId, req.accountId, req.categoryId, req.amount,
                   req.txType, req.description, req.date, now, None, None)
  }

  /** No operation removes a document or clears a deletion mark. */
  ghost predicate Retained(before: map<ObjectId, TransactionDoc>, after: map<ObjectId, TransactionDoc>)
  {
    && before.Keys <= after.Keys
    && forall id :: id in before && before[id].deletedAt.Some? ==> after[id].deletedAt.Some?
  }

  /** The successive appends that build the `$set` list. */
  method BuildUpdateFields(req: UpdateTransactionRequest, now: Time) returns (updateFields: seq<SetField>)
    ensures updateFields == UpdateFields(req, now)
  {
    updateFields := [];
    if req.amount != 0 {
      updateFields := updateFields + [SetAmount(req.amount)];
    }
    ghost var expected := Step(req.amount != 0, SetAmount(req.amount));
    assert updateFields == expected;
    if req.txType != "" {
      updateFields := updateFields + [SetType(req.txType)];
    }
    expected := expected + Step(req.txType != "", SetType(req.txType));
    assert updateFields == expected;
    if req.description != "" {
      updateFields := updateFields + [SetDescription(req.description)];
    }
    expected := expected + Step(req.description != "", SetDescription(req.description));
    assert updateFields == expected;
    if req.date != "" {
      updateFields := updateFields + [SetDate(req.date)];
    }
    expected := expected + Step(req.date != "", SetDate(req.date));
    assert updateFields == expected == Selected(req);
    if |updateFields| > 0 {
      updateFields := updateFields + [SetUpdatedAt(now)];
    }
    assert updateFields == UpdateFields(req, now);
  }

  // ---------------------------------------------------------------------
  // The storage

  /** Drains a cursor, decoding each document in turn; the first document
      whose `updated_at` assertion fails ends the listing with that error. */
  method DecodeCursor(cursor: seq<(ObjectId, TransactionDoc)>) returns (r: Result<seq<TransactionResponse>>)
    ensures r.Err? <==> exists k :: 0 <= k < |cursor| && cursor[k].1.updatedAt.None?
    ensures r.Err? ==> r.error == BadCast("updated_at")
    ensures r.Ok? ==> |r.value| == |cursor|
                      && forall k :: 0 <= k < |cursor| ==> DecodeTransaction(cursor[k].0, cursor[k].1) == Ok(r.value[k])
  {
    var transactions: seq<TransactionResponse> := [];
    var i := 0;
    while i < |cursor|
      invariant 0 <= i <= |cursor|
      invariant |transactions| == i
      invariant forall k :: 0 <= k < i ==> DecodeTransaction(cursor[k].0, cursor[k].1) == Ok(transactions[k])
    {
      var decoded := DecodeTransaction(cursor[i].0, cursor[i].1);
      if decoded.Err? {
        assert cursor[i].1.updatedAt.None?;
        return Err(decoded.error);
      }
      ghost var decodedBefore := transactions;
      transactions := transactions + [decoded.value];
      assert forall k :: 0 <= k < i ==> transactions[k] == decodedBefore[k];
      i := i + 1;
    }
    return Ok(transactions);
  }

  class TransactionStore {
    /** The `transactions` collection. */
    var docs: map<ObjectId, TransactionDoc>
    /** The order a `Find` yields documents in; the model fixes it to
        insertion order (the store itself promises none without a sort). */
    var order: seq<ObjectId>

    ghost predicate Valid()
      reads this
    {
      && (forall id :: id in docs <==> id in order)
      && (forall i, j :: 0 <= i < j < |order| ==> order[i] != order[j])
    }

    constructor ()
      ensures Valid() && docs == map[] && order == []
    {
      docs := map[];
      order := [];
    }

    /** `CreateTransaction`: inserts the new document under the id the
        driver generated; the store refuses an id it already holds. */
    method CreateTransaction(req: CreateTransactionRequest, newId: ObjectId, now: Time)
      returns (r: Result<TransactionResponse>)
      requires Valid()
      modifies this
      ensures Valid() && Retained(old(docs), docs)
      ensures newId in old(docs) ==>
                r == Err(DuplicateKey) && docs == old(docs) && order == old(order)
      ensures newId !in old(docs) ==>
                && docs == old(docs)[newId := Inserted(req, now)]
                && order == old(order) + [newId]
                && r == Ok(TransactionResponse(Hex(newId), req.userId, req.accountId,
                                               req.categoryId, req.amount, req.txType,
                                               req.description, req.date, now, None))
      ensures r.Ok? ==> GetTransactionById(GetTransactionByIdRequest(r.value.id)) == Failed(BadCast("updated_at"))
    {
      if newId in docs {
        return Err(DuplicateKey);
      }
      docs := docs[newId := Inserted(req, now)];
      order := order + [newId];
      r := Ok(TransactionResponse(Hex(newId), req.userId, req.accountId, req.categoryId,
                                  req.amount, req.txType, req.description, req.date, now, None));
      FromHexOfHex(newId);
    }

    /** `GetTransactions`: builds the filter from the non-empty request
        fields, then decodes every matching document in scan order; a
        document that cannot be decoded fails the whole read. */
    method GetTransactions(req: GetTransactionsRequest) returns (r: Result<seq<TransactionResponse>>)
      requires Valid()
      ensures var m := Matching(docs, order, Selector(req));
        r.Err? <==> exists k :: 0 <= k < |m| && m[k].1.updatedAt.None?
      ensures r.Err? ==> r.error == BadCast("updated_at")
      ensures var m := Matching(docs, order, Selector(req));
        r.Ok? ==> |r.value| == |m|
                  && forall k :: 0 <= k < |m| ==> DecodeTransaction(m[k].0, m[k].1) == Ok(r.value[k])
    {
      var filter := BuildListFilter(req);

      // The server applies the filter; the loop is `for cursor.Next(ctx)`.
      var cursor := Matching(docs, order, FilterSelector(filter));
      r := DecodeCursor(cursor);
    }

    /** `GetTransactionById`: an unparsable id is an error, a valid id with
        no document is the empty result, otherwise the decoded document. */
    function GetTransactionById(req: GetTransactionByIdRequest): (r: Reply<TransactionResponse>)
      reads this
      ensures FromHex(req.id).None? ==> r == Failed(InvalidObjectId)
      ensures r.Nil? <==> FromHex(req.id).Some? && FromHex(req.id).value !in docs
      ensures r.Found? <==>
                FromHex(req.id).Some? && FromHex(req.id).value in docs
                && docs[FromHex(req.id).value].updatedAt.Some?
      ensures r.Found? ==> DecodeTransaction(FromHex(req.id).value, docs[FromHex(req.id).value]) == Ok(r.value)
      ensures FromHex(req.id).Some? && r.Failed? ==> r.error == BadCast("updated_at")
    {
      match FromHex(req.id)
      case None => Failed(InvalidObjectId)
      case Some(id) =>
        if id !in docs then Nil
        else
          match DecodeTransaction(id, docs[id])
          case Ok(resp) => Found(resp)
          case Err(e) => Failed(e)
    }

    /** `UpdateTransaction`: matches on `_id` alone (a soft-deleted
        transaction is still updated), sets only the selected fields plus
        `updated_at`, and returns the document after the update. */
    method UpdateTransaction(req: UpdateTransactionRequest, now: Time) returns (r: Reply<TransactionResponse>)
      requires Valid()
      modifies this
      ensures Valid() && Retained(old(docs), docs) && order == old(order)
      ensures FromHex(req.id).None? ==> r == Failed(InvalidObjectId) && docs == old(docs)
      ensures FromHex(req.id).Some? && NothingToUpdate(req) ==> r == Nil && docs == old(docs)
      ensures FromHex(req.id).Some? && FromHex(req.id).value !in old(docs) ==> r == Nil && docs == old(docs)
      ensures FromHex(req.id).Some? && !NothingToUpdate(req) && FromHex(req.id).value in old(docs) ==>
                var id := FromHex(req.id).value;
                && docs == old(docs)[id := Updated(old(docs)[id], req, now)]
                && r.Found? && DecodeTransaction(id, docs[id]) == Ok(r.value)
                && r.value.updatedAt == Some(now)
    {
      var parsed := FromHex(req.id);
      if parsed.None? {
        return Failed(InvalidObjectId);
      }
      var id := parsed.value;

      var updateFields := BuildUpdateFields(req, now);

      if |updateFields| == 0 {
        return Nil;
      }

      if id !in docs {
        return Nil;
      }
      UpdateFieldsApply(docs[id], req, now);
      docs := docs[id := ApplyAll(ApplyField, docs[id], updateFields)];
      var decoded := DecodeTransaction(id, docs[id]);
      r := Found(decoded.value);
    }

    /** `DeleteTransaction`: a soft delete that stamps `deleted_at` on the
        matching document; no match is not an error, and a repeat delete
        stamps again. */
    method DeleteTransaction(req: DeleteTransactionRequest, now: Time) returns (r: Result<Empty>)
      requires Valid()
      modifies this
      ensures Valid() && Retained(old(docs), docs) && order == old(order)
      ensures FromHex(req.id).None? ==> r == Err(InvalidObjectId) && docs == old(docs)
      ensures FromHex(req.id).Some? ==>
                var id := FromHex(req.id).value;
                && r == Ok(Empty)
                && docs == if id in old(docs) then old(docs)[id := old(docs)[id].(deletedAt := Some(now))]
                           else old(docs)
    {
      var parsed := FromHex(req.id);
      if parsed.None? {
        return Err(InvalidObjectId);
      }
      var id := parsed.value;
      if id in docs {
        docs := docs[id := docs[id].(deletedAt := Some(now))];
      }
      return Ok(Empty);
    }
  }

  /** An all-empty list request returns every document of the collection,
      soft-deleted ones included. */
  lemma EmptyListRequestMatchesAll(docs: map<ObjectId, TransactionDoc>, order: seq<ObjectId>)
    ensures forall id :: id in order && id in docs ==>
              (id, docs[id]) in Matching(docs, order, Selector(GetTransactionsRequest("", "", "")))
  {
    var req := GetTransactionsRequest("", "", "");
    forall id | id in order && id in docs
      ensures (id, docs[id]) in Matching(docs, order, Selector(req))
    {
      ListFilterMeaning(req, docs[id]);
      MatchingComplete(docs, order, Selector(req), id);
    }
  }

  /** A soft-deleted transaction that satisfies the filter is listed. */
  lemma DeletedTransactionsListed(docs: map<ObjectId, TransactionDoc>, order: seq<ObjectId>,
                                  req: GetTransactionsRequest, id: ObjectId)
    requires id in order && id in docs && docs[id].deletedAt.Some?
    requires Satisfies(docs[id], ListFilter(req))
    ensures (id, docs[id]) in Matching(docs, order, Selector(req))
  {
    MatchingComplete(docs, order, Selector(req), id);
  }

  /** Every listed transaction is stored under its id and matches every
      non-empty field of the request. */
  lemma ListedMatchRequest(docs: map<ObjectId, TransactionDoc>, order: seq<ObjectId>,
                           req: GetTransactionsRequest, k: nat)
    requires k < |Matching(docs, order, Selector(req))|
    ensures var (id, doc) := Matching(docs, order, Selector(req))[k];
      && id in docs && docs[id] == doc
      && (req.userId == "" || doc.userId == req.userId)
      && (req.accountId == "" || doc.accountId == req.accountId)
      && (req.categoryId == "" || doc.categoryId == req.categoryId)
  {
    MatchingSound(docs, order, Selector(req));
    ListFilterMeaning(req, Matching(docs, order, Selector(req))[k].1);
  }
}
