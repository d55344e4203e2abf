/** The `goals` collection and the five storage operations on it
    (internal/items/storage/mongodb/goal-storage.go). As for transactions,
    the collection is a map from object id to stored document plus its
    insertion order, taken as the scan order. Unlike transactions, an
    update only matches a goal that carries no `deleted_at`. */
module GoalStorage {
  import opened Mongo
  import opened ObjectIds

  /** A stored goal document. */
  datatype GoalDoc = GoalDoc(
    userId: string,
    name: string,
    targetAmount: int,
    currentAmount: int,
    deadline: string,
    status: string,
    createdAt: Time,
    updatedAt: Option<Time>,
    deletedAt: Option<Time>)

  datatype CreateGoalRequest = CreateGoalRequest(
    userId: string, name: string, targetAmount: int, currentAmount: int,
    deadline: string, status: string)

  datatype GetGoalsRequest = GetGoalsRequest(userId: string)

  datatype GetGoalByIdRequest = GetGoalByIdRequest(id: string)

  datatype UpdateGoalRequest = UpdateGoalRequest(
    id: string, name: string, targetAmount: int, currentAmount: int,
    deadline: string, status: string)

  datatype DeleteGoalRequest = DeleteGoalRequest(id: string)

  /** `pb.GoalResponse`; `updatedAt == None` is the empty string. */
  datatype GoalResponse = GoalResponse(
    id: string,
    userId: string,
    name: string,
    targetAmount: int,
    currentAmount: int,
    deadline: string,
    status: string,
    createdAt: Time,
    updatedAt: Option<Time>)

  // ---------------------------------------------------------------------
  // Reading a stored document

  /** The stored document a response describes, given the `deleted_at`
      value that responses do not carry. */
  function Described(resp: GoalResponse, deletedAt: Option<Time>): GoalDoc
  {
    GoalDoc(resp.userId, resp.name, resp.targetAmount, resp.currentAmount,
            resp.deadline, resp.status, resp.createdAt, resp.updatedAt, deletedAt)
  }

  /** The field-by-field conversion every read performs; the unconditional
      cast of `updated_at` fails on a document that has none. */
  function DecodeGoal(id: ObjectId, doc: GoalDoc): (r: Result<GoalResponse>)
    ensures r.Ok? <==> doc.updatedAt.Some?
    ensures r.Err? ==> r.error == BadCast("updated_at")
    ensures r.Ok? ==> FromHex(r.value.id) == Some(id)
    ensures r.Ok? ==> Described(r.value, doc.deletedAt) == doc
  {
    if doc.updatedAt.None? then Err(BadCast("updated_at"))
    else
      FromHexOfHex(id);
      Ok(GoalResponse(Hex(id), doc.userId, doc.name, doc.targetAmount, doc.currentAmount,
                      doc.deadline, doc.status, doc.createdAt, doc.updatedAt))
  }

  /** The list filter `{user_id: req.UserId}`: always present, even for an
      empty user id, and with no soft-delete exclusion. */
  predicate OfUser(req: GetGoalsRequest, doc: GoalDoc)
  {
    doc.userId == req.userId
  }

  function Selector(req: GetGoalsRequest): GoalDoc -> bool
  {
    doc => OfUser(req, doc)
  }

  // ---------------------------------------------------------------------
  // The update document

  /** One entry of the `$set` document `UpdateGoal` sends. */
  datatype SetField =
    | SetName(name: string)
    | SetTargetAmount(targetAmount: int)
    | SetCurrentAmount(currentAmount: int)
    | SetDeadline(deadline: string)
    | SetStatus(status: string)
    | SetUpdatedAt(at: Time)

  /** One `$set` entry changes only the field it names; the user,
      `created_at` and the deletion mark are never among them. */
  function ApplyField(doc: GoalDoc, f: SetField): (r: GoalDoc)
    ensures r.userId == doc.userId && r.createdAt == doc.createdAt && r.deletedAt == doc.deletedAt
    ensures !f.SetName? ==> r.name == doc.name
    ensures !f.SetTargetAmount? ==> r.targetAmount == doc.targetAmount
    ensures !f.SetCurrentAmount? ==> r.currentAmount == doc.currentAmount
    ensures !f.SetDeadline? ==> r.deadline == doc.deadline
    ensures !f.SetStatus? ==> r.status == doc.status
    ensures !f.SetUpdatedAt? ==> r.updatedAt == doc.updatedAt
  {
    match f
    case SetName(n) => doc.(name := n)
    case SetTargetAmount(a) => doc.(targetAmount := a)
    case SetCurrentAmount(a) => doc.(currentAmount := a)
    case SetDeadline(d) => doc.(deadline := d)
    case SetStatus(s) => doc.(status := s)
    case SetUpdatedAt(t) => doc.(updatedAt := Some(t))
  }

  predicate NothingToUpdate(req: UpdateGoalRequest)
  {
    req.name == "" && req.targetAmount == 0 && req.currentAmount == 0
    && req.deadline == "" && req.status == ""
  }

  /** The request fields an update selects, in the order they are appended. */
  function Selected(req: UpdateGoalRequest): seq<SetField>
  {
    Step(req.name != "", SetName(req.name))
    + Step(req.targetAmount != 0, SetTargetAmount(req.targetAmount))
    + Step(req.currentAmount != 0, SetCurrentAmount(req.currentAmount))
    + Step(req.deadline != "", SetDeadline(req.deadline))
    + Step(req.status != "", SetStatus(req.status))
  }

  /** The `$set` fields: non-empty name, deadline and status, non-zero
      target and current amounts, then `updated_at` when anything was
      selected. */
  function UpdateFields(req: UpdateGoalRequest, now: Time): (fields: seq<SetField>)
    ensures fields == [] <==> NothingToUpdate(req)
    ensures SetUpdatedAt(now) in fields <==> !NothingToUpdate(req)
    ensures forall f :: f in fields ==>
              || (f.SetName? && f.name == req.name && req.name != "")
              || (f.SetTargetAmount? && f.targetAmount == req.targetAmount && req.targetAmount != 0)
              || (f.SetCurrentAmount? && f.currentAmount == req.currentAmount && req.currentAmount != 0)
              || (f.SetDeadline? && f.deadline == req.deadline && req.deadline != "")
              || (f.SetStatus? && f.status == req.status && req.status != "")
              || f == SetUpdatedAt(now)
  {
    var selected := Selected(req);
    selected + Step(|selected| > 0, SetUpdatedAt(now))
  }

  /** The successive appends that build the `$set` list. */
  method BuildUpdateFields(req: UpdateGoalRequest, now: Time) returns (updateFields: seq<SetField>)
    ensures updateFields == UpdateFields(req, now)
  {
    updateFields := [];
    if req.name != "" {
      updateFields := updateFields + [SetName(req.name)];
    }
    ghost var expected := Step(req.name != "", SetName(req.name));
    assert updateFields == expected;
    if req.targetAmount != 0 {
      updateFields := updateFields + [SetTargetAmount(req.targetAmount)];
    }
    expected := expected + Step(req.targetAmount != 0, SetTargetAmount(req.targetAmount));
    assert updateFields == expected;
    if req.currentAmount != 0 {
      updateFields := updateFields + [SetCurrentAmount(req.currentAmount)];
    }
    expected := expected + Step(req.currentAmount != 0, SetCurrentAmount(req.currentAmount));
    assert updateFields == expected;
    if req.deadline != "" {
      updateFields := updateFields + [SetDeadline(req.deadline)];
    }
    expected := expected + Step(req.deadline != "", SetDeadline(req.deadline));
    assert updateFields == expected;
    if req.status != "" {
      updateFields := updateFields + [SetStatus(req.status)];
    }
    expected := expected + Step(req.status != "", SetStatus(req.status));
    assert updateFields == expected == Selected(req);
    if |updateFields| > 0 {
      updateFields := updateFields + [SetUpdatedAt(now)];
    }
    assert updateFields == UpdateFields(req, now);
  }

  /** The document after a non-empty update, field by field: each selected
      field takes the request's value, `updated_at` becomes `now`, and
      nothing else moves. */
  function Updated(doc: GoalDoc, req: UpdateGoalRequest, now: Time): (u: GoalDoc)
    ensures u.updatedAt == Some(now)
    ensures req.name != "" ==> u.name == req.name
    ensures req.name == "" ==> u.name == doc.name
    ensures req.targetAmount != 0 ==> u.targetAmount == req.targetAmount
    ensures req.targetAmount == 0 ==> u.targetAmount == doc.targetAmount
    ensures req.currentAmount != 0 ==> u.currentAmount == req.currentAmount
    ensures req.currentAmount == 0 ==> u.currentAmount == doc.currentAmount
    ensures req.deadline != "" ==> u.deadline == req.deadline
    ensures req.deadline == "" ==> u.deadline == doc.deadline
    ensures req.status != "" ==> u.status == req.status
    ensures req.status == "" ==> u.status == doc.status
  {
    GoalDoc(
      doc.userId,
      if req.name != "" then req.name else doc.name,
      if req.targetAmount != 0 then req.targetAmount else doc.targetAmount,
      if req.currentAmount != 0 then req.currentAmount else doc.currentAmount,
      if req.deadline != "" then req.deadline else doc.deadline,
      if req.status != "" then req.status else doc.status,
      doc.createdAt, Some(now), doc.deletedAt)
  }

  /** Sending the `$set` of `UpdateFields` to a document produces `Updated`. */
  lemma UpdateFieldsApply(doc: GoalDoc, req: UpdateGoalRequest, now: Time)
    requires !NothingToUpdate(req)
    ensures ApplyAll(ApplyField, doc, UpdateFields(req, now)) == Updated(doc, req, now)
  {
    var s1 := Step(req.name != "", SetName(req.name));
    var s2 := Step(req.targetAmount != 0, SetTargetAmount(req.targetAmount));
    var s3 := Step(req.currentAmount != 0, SetCurrentAmount(req.currentAmount));
    var s4 := Step(req.deadline != "", SetDeadline(req.deadline));
    var s5 := Step(req.status != "", SetStatus(req.status));
    // The document after each successive entry.
    var d1 := if req.name != "" then doc.(name := req.name) else doc;
    var d2 := if req.targetAmount != 0 then d1.(targetAmount := req.targetAmount) else d1;
    var d3 := if req.currentAmount != 0 then d2.(currentAmount := req.currentAmount) else d2;
    var d4 := if req.deadline != "" then d3.(deadline := req.deadline) else d3;
    var d5 := if req.status != "" then d4.(status := req.status) else d4;
    assert ApplyAll(ApplyField, doc, s1) == d1 by {
      ApplyStep(ApplyField, doc, [], req.name != "", SetName(req.name));
      assert [] + s1 == s1;
    }
    assert ApplyAll(ApplyField, doc, s1 + s2) == d2 by {
      ApplyStep(ApplyField, doc, s1, req.targetAmount != 0, SetTargetAmount(req.targetAmount));
    }
    assert ApplyAll(ApplyField, doc, s1 + s2 + s3) == d3 by {
      ApplyStep(ApplyField, doc, s1 + s2, req.currentAmount != 0, SetCurrentAmount(req.currentAmount));
    }
    assert ApplyAll(ApplyField, doc, s1 + s2 + s3 + s4) == d4 by {
      ApplyStep(ApplyField, doc, s1 + s2 + s3, req.deadline != "", SetDeadline(req.deadline));
    }
    var selected := s1 + s2 + s3 + s4 + s5;
    assert ApplyAll(ApplyField, doc, selected) == d5 by {
      ApplyStep(ApplyField, doc, s1 + s2 + s3 + s4, req.status != "", SetStatus(req.status));
    }
    assert selected == Selected(req);
    assert UpdateFields(req, now) == selected + Step(true, SetUpdatedAt(now));
    ApplyStep(ApplyField, doc, selected, true, SetUpdatedAt(now));
    assert d5.(updatedAt := Some(now)) == Updated(doc, req, now);
  }

  /** An update never changes the owner, the creation time or the deletion
      mark, and it can never reset an amount to zero or clear a string. */
  lemma UpdatedKeepsIdentity(doc: GoalDoc, req: UpdateGoalRequest, now: Time)
    ensures var u := Updated(doc, req, now);
      && u.userId == doc.userId && u.createdAt == doc.createdAt && u.deletedAt == doc.deletedAt
      && (u.targetAmount == 0 ==> doc.targetAmount == 0)
      && (u.currentAmount == 0 ==> doc.currentAmount == 0)
      && (u.name == "" ==> doc.name == "")
      && (u.deadline == "" ==> doc.deadline == "")
      && (u.status == "" ==> doc.status == "")
  {
  }

  /** The document `CreateGoal` inserts: the request fields and
      `created_at`; neither `updated_at` nor `deleted_at`. */
  function Inserted(req: CreateGoalRequest, now: Time): (d: GoalDoc)
    ensures CreateGoalRequest(d.userId, d.name, d.targetAmount, d.currentAmount,
                              d.deadline, d.status) == req
    ensures d.createdAt == now && d.updatedAt.None? && d.deletedAt.None?
    ensures forall id :: DecodeGoal(id, d) == Err(BadCast("updated_at"))
  {
    GoalDoc(req.userId, req.name, req.targetAmount, req.currentAmount,
            req.deadline, req.status, now, None, None)
  }

  /** No operation removes a document or clears a deletion mark. */
  ghost predicate Retained(before: map<ObjectId, GoalDoc>, after: map<ObjectId, GoalDoc>)
  {
    && before.Keys <= after.Keys
    && forall id :: id in before && before[id].deletedAt.Some? ==> after[id].deletedAt.Some?
  }

  // ---------------------------------------------------------------------
  // The storage

  /** Drains a cursor, decoding each document in turn; the first document
      whose `updated_at` assertion fails ends the listing with that error. */
  method DecodeCursor(cursor: seq<(ObjectId, GoalDoc)>) returns (r: Result<seq<GoalResponse>>)
    ensures r.Err? <==> exists k :: 0 <= k < |cursor| && cursor[k].1.updatedAt.None?
    ensures r.Err? ==> r.error == BadCast("updated_at")
    ensures r.Ok? ==> |r.value| == |cursor|
                      && forall k :: 0 <= k < |cursor| ==> DecodeGoal(cursor[k].0, cursor[k].1) == Ok(r.value[k])
  {
    var goals: seq<GoalResponse> := [];
    var i := 0;
    while i < |cursor|
      invariant 0 <= i <= |cursor|
      invariant |goals| == i
      invariant forall k :: 0 <= k < i ==> DecodeGoal(cursor[k].0, cursor[k].1) == Ok(goals[k])
    {
      var decoded := DecodeGoal(cursor[i].0, cursor[i].1);
      if decoded.Err? {
        assert cursor[i].1.updatedAt.None?;
        return Err(decoded.error);
      }
      ghost var decodedBefore := goals;
      goals := goals + [decoded.value];
      assert forall k :: 0 <= k < i ==> goals[k] == decodedBefore[k];
      i := i + 1;
    }
    return Ok(goals);
  }

  class GoalStore {
    /** The `goals` collection. */
    var docs: map<ObjectId, GoalDoc>
    /** The order a `Find` yields documents in; the model fixes it to
        insertion order (the store itself promises none without a sort). */
    var order: seq<ObjectId>

    ghost predicate Valid()
      reads this
    {
      && (forall id :: id in docs <==> id in order)
      && (forall i, j :: 0 <= i < j < |order| ==> order[i] != order[j])
    }

    constructor ()
      ensures Valid() && docs == map[] && order == []
    {
      docs := map[];
      order := [];
    }

    /** `CreateGoal`: inserts the new document under the id the driver
        generated; the store refuses an id it already holds. */
    method CreateGoal(req: CreateGoalRequest, newId: ObjectId, now: Time) returns (r: Result<GoalResponse>)
      requires Valid()
      modifies this
      ensures Valid() && Retained(old(docs), docs)
      ensures newId in old(docs) ==>
                r == Err(DuplicateKey) && docs == old(docs) && order == old(order)
      ensures newId !in old(docs) ==>
                && docs == old(docs)[newId := Inserted(req, now)]
                && order == old(order) + [newId]
                && r == Ok(GoalResponse(Hex(newId), req.userId, req.name, req.targetAmount,
                                        req.currentAmount, req.deadline, req.status, now, None))
      ensures r.Ok? ==> GetGoalById(GetGoalByIdRequest(r.value.id)) == Failed(BadCast("updated_at"))
    {
      if newId in docs {
        return Err(DuplicateKey);
      }
      docs := docs[newId := Inserted(req, now)];
      order := order + [newId];
      r := Ok(GoalResponse(Hex(newId), req.userId, req.name, req.targetAmount,
                           req.currentAmount, req.deadline, req.status, now, None));
      FromHexOfHex(newId);
    }

    /** `GetGoals`: decodes every goal of the requested user in scan
        order; a document that cannot be decoded fails the whole read. */
    method GetGoals(req: GetGoalsRequest) returns (r: Result<seq<GoalResponse>>)
      requires Valid()
      ensures var m := Matching(docs, order, Selector(req));
        r.Err? <==> exists k :: 0 <= k < |m| && m[k].1.updatedAt.None?
      ensures r.Err? ==> r.error == BadCast("updated_at")
      ensures var m := Matching(docs, order, Selector(req));
        r.Ok? ==> |r.value| == |m|
                  && forall k :: 0 <= k < |m| ==> DecodeGoal(m[k].0, m[k].1) == Ok(r.value[k])
    {
      // The server applies the filter `{user_id: req.UserId}`; the loop is
      // `for cursor.Next(ctx)`.
      var cursor := Matching(docs, order, Selector(req));
      r := DecodeCursor(cursor);
    }

    /** `GetGoalById`: an unparsable id is an error, a valid id with no
        document is the empty result, otherwise the decoded document. */
    function GetGoalById(req: GetGoalByIdRequest): (r: Reply<GoalResponse>)
      reads this
      ensures FromHex(req.id).None? ==> r == Failed(InvalidObjectId)
      ensures r.Nil? <==> FromHex(req.id).Some? && FromHex(req.id).value !in docs
      ensures r.Found? <==>
                FromHex(req.id).Some? && FromHex(req.id).value in docs
                && docs[FromHex(req.id).value].updatedAt.Some?
      ensures r.Found? ==> DecodeGoal(FromHex(req.id).value, docs[FromHex(req.id).value]) == Ok(r.value)
      ensures FromHex(req.id).Some? && r.Failed? ==> r.error == BadCast("updated_at")
    {
      match FromHex(req.id)
      case None => Failed(InvalidObjectId)
      case Some(id) =>
        if id !in docs then Nil
        else
          match DecodeGoal(id, docs[id])
          case Ok(resp) => Found(resp)
          case Err(e) => Failed(e)
    }

    /** `UpdateGoal`: matches on `_id` and the absence of `deleted_at`, so
        a soft-deleted goal is never modified; sets only the selected fields
        plus `updated_at` and returns the document after the update. */
    method UpdateGoal(req: UpdateGoalRequest, now: Time) returns (r: Reply<GoalResponse>)
      requires Valid()
      modifies this
      ensures Valid() && Retained(old(docs), docs) && order == old(order)
      ensures FromHex(req.id).None? ==> r == Failed(InvalidObjectId) && docs == old(docs)
      ensures FromHex(req.id).Some? && NothingToUpdate(req) ==> r == Nil && docs == old(docs)
      ensures FromHex(req.id).Some? && FromHex(req.id).value !in old(docs) ==> r == Nil && docs == old(docs)
      ensures (FromHex(req.id).Some? && FromHex(req.id).value in old(docs)
               && old(docs)[FromHex(req.id).value].deletedAt.Some?) ==> r == Nil && docs == old(docs)
      ensures (FromHex(req.id).Some? && !NothingToUpdate(req) && FromHex(req.id).value in old(docs)
               && old(docs)[FromHex(req.id).value].deletedAt.None?) ==>
                var id := FromHex(req.id).value;
                && docs == old(docs)[id := Updated(old(docs)[id], req, now)]
                && r.Found? && DecodeGoal(id, docs[id]) == Ok(r.value)
                && r.value.updatedAt == Some(now)
    {
      var parsed := FromHex(req.id);
      if parsed.None? {
        return Failed(InvalidObjectId);
      }
      var id := parsed.value;

      var updateFields := BuildUpdateFields(req, now);
      if |updateFields| == 0 {
        return Nil;
      }

      if id !in docs || docs[id].deletedAt.Some? {
        return Nil;
      }
      UpdateFieldsApply(docs[id], req, now);
      docs := docs[id := ApplyAll(ApplyField, docs[id], updateFields)];
      var decoded := DecodeGoal(id, docs[id]);
      r := Found(decoded.value);
    }

    /** `DeleteGoal`: a soft delete that stamps `deleted_at` on the matching
        document; no match is not an error. */
    method DeleteGoal(req: DeleteGoalRequest, now: Time) returns (r: Result<Empty>)
      requires Valid()
      modifies this
      ensures Valid() && Retained(old(docs), docs) && order == old(order)
      ensures FromHex(req.id).None? ==> r == Err(InvalidObjectId) && docs == old(docs)
      ensures FromHex(req.id).Some? ==>
                var id := FromHex(req.id).value;
                && r == Ok(Empty)
                && docs == if id in old(docs) then old(docs)[id := old(docs)[id].(deletedAt := Some(now))]
                           else old(docs)
    {
      var parsed := FromHex(req.id);
      if parsed.None? {
        return Err(InvalidObjectId);
      }
      var id := parsed.value;
      if id in docs {
        docs := docs[id := docs[id].(deletedAt := Some(now))];
      }
      return Ok(Empty);
    }
  }

  /** Once a goal is deleted, a later update of it, whatever it asks for and
      however either request spells the id, changes nothing and returns the
      empty result. */
  method DeleteThenUpdate(store: GoalStore, id: ObjectId, del: DeleteGoalRequest, req: UpdateGoalRequest,
                          t0: Time, t1: Time)
    returns (r: Reply<GoalResponse>)
    requires store.Valid() && FromHex(del.id) == Some(id) && FromHex(req.id) == Some(id)
    modifies store
    ensures store.Valid()
    ensures r == Nil
    ensures id in old(store.docs) ==>
              store.docs == old(store.docs)[id := old(store.docs)[id].(deletedAt := Some(t0))]
    ensures id !in old(store.docs) ==> store.docs == old(store.docs)
  {
    var _ := store.DeleteGoal(del, t0);
    r := store.UpdateGoal(req, t1);
  }

  /** An empty user id in the list request selects only goals whose stored
      user id is empty: it is not a wildcard. */
  lemma EmptyUserIdIsNotWildcard(docs: map<ObjectId, GoalDoc>, order: seq<ObjectId>, id: ObjectId)
    requires id in docs && docs[id].userId != ""
    ensures (id, docs[id]) !in Matching(docs, order, Selector(GetGoalsRequest("")))
  {
    MatchingSound(docs, order, Selector(GetGoalsRequest("")));
  }

  /** A soft-deleted goal of the requested user is still listed. */
  lemma DeletedGoalsListed(docs: map<ObjectId, GoalDoc>, order: seq<ObjectId>, req: GetGoalsRequest, id: ObjectId)
    requires id in order && id in docs && docs[id].deletedAt.Some? && docs[id].userId == req.userId
    ensures (id, docs[id]) in Matching(docs, order, Selector(req))
  {
    MatchingComplete(docs, order, Selector(req), id);
  }

  /** Every listed goal is stored under its id and belongs to the requested
      user. */
  lemma ListedGoalsBelongToUser(docs: map<ObjectId, GoalDoc>, order: seq<ObjectId>,
                                req: GetGoalsRequest, k: nat)
    requires k < |Matching(docs, order, Selector(req))|
    ensures var (id, doc) := Matching(docs, order, Selector(req))[k];
      id in docs && docs[id] == doc && doc.userId == req.userId
  {
    MatchingSound(docs, order, Selector(req));
  }
}
