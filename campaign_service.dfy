/** `CampaignService`: campaign documents over a Firestore collection.

    The collection is a map from document id to stored record. Firestore's
    own behaviour enters as parameters: the id `addDoc` generates (`newId`),
    the clock reading `Timestamp.now()` gives (`now`), the order in which a
    query lists the documents (`keys`), and, for each backend call, the
    message it fails with, if it fails (`readFault`, `writeFault`). */
module CampaignService {
  import opened Wrappers
  import opened CampaignTypes

  const MissingFieldsMessage := "Missing required fields"
  const InvalidOwnerMessage := "Invalid owner ID"
  const NotFoundMessage := "Campaign not found"
  const UnauthorizedMessage := "Unauthorized to update this campaign"

  const CreateFailed := "Failed to create campaign"
  const CreateCode := "campaign/creation-failed"
  const RetrieveFailed := "Failed to retrieve campaign"
  const RetrieveCode := "campaign/retrieval-failed"
  const UpdateFailed := "Failed to update campaign"
  const UpdateCode := "campaign/update-failed"
  const ListFailed := "Failed to retrieve user campaigns"
  const ListCode := "campaign/user-campaigns-retrieval-failed"

  type Store = map<string, Campaign>

  /** The checks `createCampaign` makes before writing: the message of the
      error it throws, or `None` when the data is accepted. */
  function CreateCheck(data: CreateCampaignData, userId: string): (r: Option<string>)
    ensures r.None? <==> data.title != "" && data.ownerId != "" && data.groups.Some? && data.ownerId == userId
    ensures r == Some(InvalidOwnerMessage) <==>
              data.title != "" && data.ownerId != "" && data.groups.Some? && data.ownerId != userId
    ensures r.Some? ==> r.value == MissingFieldsMessage || r.value == InvalidOwnerMessage
  {
    if data.title == "" || data.ownerId == "" || data.groups.None? then Some(MissingFieldsMessage)
    else if data.ownerId != userId then Some(InvalidOwnerMessage)
    else None
  }

  /** The record `createCampaign` stores: the data and two equal timestamps,
      and no `uuid`. */
  function NewRecord(data: CreateCampaignData, now: Timestamp): Campaign
  {
    Campaign(None, Some(data.ownerId), data.title, data.description, data.groups, now, now)
  }

  /** `{ uuid: id, ...record }`: the id, unless the record carries a uuid of
      its own, which the spread then puts over it. */
  function WithId(rec: Campaign, id: string): (c: Campaign)
    ensures c.uuid == (if rec.uuid.Some? then rec.uuid else Some(id))
    ensures c.(uuid := rec.uuid) == rec
  {
    rec.(uuid := if rec.uuid.Some? then rec.uuid else Some(id))
  }

  /** `{ ...campaign, ...data, updatedAt: now }`: the fields present in the
      update replace the stored ones; everything else, the uuid (or its
      absence) and the owner included, is the stored record's. */
  function Overlay(rec: Campaign, d: UpdateCampaignData, now: Timestamp): (c: Campaign)
    ensures c.uuid == rec.uuid && c.ownerId == rec.ownerId && c.createdAt == rec.createdAt
    ensures c.updatedAt == now
    ensures c.title == d.title.GetOr(rec.title)
    ensures c.description == d.description.GetOr(rec.description)
    ensures c.groups == (if d.groups.Some? then d.groups else rec.groups)
  {
    Campaign(rec.uuid, rec.ownerId,
             if d.title.Some? then d.title.value else rec.title,
             if d.description.Some? then d.description.value else rec.description,
             if d.groups.Some? then d.groups else rec.groups,
             rec.createdAt, now)
  }

  /** Two updates in a row: the later one's fields win. */
  function Then(d1: UpdateCampaignData, d2: UpdateCampaignData): UpdateCampaignData
  {
    UpdateCampaignData(if d2.title.Some? then d2.title else d1.title,
                       if d2.description.Some? then d2.description else d1.description,
                       if d2.groups.Some? then d2.groups else d1.groups)
  }

  /** Overlaying twice is overlaying the combined update once. */
  lemma OverlayThen(rec: Campaign, d1: UpdateCampaignData, t1: Timestamp, d2: UpdateCampaignData, t2: Timestamp)
    ensures Overlay(Overlay(rec, d1, t1), d2, t2) == Overlay(rec, Then(d1, d2), t2)
  {
  }

  /** The outcome of one service call: what it returns or throws, and the
      collection afterwards. */
  datatype Step = Step(result: Result<Campaign, FirebaseError>, docs: Store)

  /** The specification of `createCampaign`. */
  function Create(docs: Store, data: CreateCampaignData, userId: string, newId: string, now: Timestamp,
                  writeFault: Option<string>): (s: Step)
    requires newId !in docs
    ensures s.result.Ok? <==> CreateCheck(data, userId).None? && writeFault.None?
    ensures s.result.Err? ==> s.docs == docs
    ensures s.result.Err? ==> s.result.error.message == CreateFailed && s.result.error.code == CreateCode
    ensures s.result.Err? && CreateCheck(data, userId).Some? ==> s.result.error.cause == CreateCheck(data, userId).value
    ensures s.result.Ok? ==> s.docs.Keys == docs.Keys + {newId} && |s.docs| == |docs| + 1
    ensures s.result.Ok? ==> forall id | id in docs :: s.docs[id] == docs[id]
    ensures s.result.Ok? ==>
              var c := s.result.value;
              && c.uuid == Some(newId) && s.docs[newId].uuid.None?
              && c == s.docs[newId].(uuid := Some(newId))
              && c.ownerId == Some(userId) && c.title == data.title && c.description == data.description
              && c.groups == data.groups && c.createdAt == now && c.updatedAt == now
  {
    match CreateCheck(data, userId)
    case Some(m) => Step(Err(FirebaseError(CreateFailed, CreateCode, m)), docs)
    case None =>
      if writeFault.Some? then Step(Err(FirebaseError(CreateFailed, CreateCode, writeFault.value)), docs)
      else
        var rec := NewRecord(data, now);
        Step(Ok(WithId(rec, newId)), docs[newId := rec])
  }

  /** The checks `updateCampaign` makes on the stored record. */
  function UpdateCheck(docs: Store, uuid: string, userId: string): (r: Option<string>)
    ensures r.None? <==> uuid in docs && docs[uuid].ownerId == Some(userId)
    ensures r == Some(NotFoundMessage) <==> uuid !in docs
  {
    if uuid !in docs then Some(NotFoundMessage)
    else if docs[uuid].ownerId != Some(userId) then Some(UnauthorizedMessage)
    else None
  }

  /** The specification of `updateCampaign`. */
  function Update(docs: Store, uuid: string, data: UpdateCampaignData, userId: string, now: Timestamp,
                  readFault: Option<string>, writeFault: Option<string>): (s: Step)
    ensures s.result.Ok? <==>
              readFault.None? && writeFault.None? && uuid in docs && docs[uuid].ownerId == Some(userId)
    ensures s.result.Err? ==> s.docs == docs
    ensures s.result.Err? ==> s.result.error.message == UpdateFailed && s.result.error.code == UpdateCode
    ensures s.result.Ok? ==> s.docs == docs[uuid := s.result.value]
    ensures s.result.Ok? ==>
              var c := s.result.value;
              && c.ownerId == docs[uuid].ownerId == Some(userId)
              && c.uuid == docs[uuid].uuid
              && c.createdAt == docs[uuid].createdAt && c.updatedAt == now
              && c == Overlay(docs[uuid], data, now)
  {
    if readFault.Some? then Step(Err(FirebaseError(UpdateFailed, UpdateCode, readFault.value)), docs)
    else match UpdateCheck(docs, uuid, userId)
      case Some(m) => Step(Err(FirebaseError(UpdateFailed, UpdateCode, m)), docs)
      case None =>
        if writeFault.Some? then Step(Err(FirebaseError(UpdateFailed, UpdateCode, writeFault.value)), docs)
        else
          var updated := Overlay(docs[uuid], data, now);
          Step(Ok(updated), docs[uuid := updated])
  }

  /** A record stored by `createCampaign` has no uuid, so the campaign that
      `updateCampaign` returns for it has none either. */
  lemma {:induction false} UpdateAfterCreateHasNoUuid(
    docs: Store, data: CreateCampaignData, userId: string, newId: string, t1: Timestamp, upd: UpdateCampaignData, t2: Timestamp)
    requires newId !in docs
    requires Create(docs, data, userId, newId, t1, None).result.Ok?
    ensures var after := Create(docs, data, userId, newId, t1, None).docs;
            var u := Update(after, newId, upd, userId, t2, None, None);
            u.result.Ok? && u.result.value.uuid.None?
  {
    var after := Create(docs, data, userId, newId, t1, None).docs;
    assert after[newId] == NewRecord(data, t1);
  }

  /** A stored document without `ownerId` belongs to nobody, not even to the
      empty user id: every update of it fails as unauthorized. */
  lemma OwnerlessNotUpdatable(docs: Store, uuid: string, data: UpdateCampaignData, userId: string,
                              now: Timestamp, readFault: Option<string>, writeFault: Option<string>)
    requires uuid in docs && docs[uuid].ownerId.None?
    ensures Update(docs, uuid, data, userId, now, readFault, writeFault).result.Err?
    ensures readFault.None? ==>
              Update(docs, uuid, data, userId, now, readFault, writeFault).result.error.cause == UnauthorizedMessage
  {
  }

  /** `a` is `b` with some elements left out, the rest in their order. */
  predicate Subsequence(a: seq<string>, b: seq<string>)
    decreases |b|
  {
    a == [] || (b != [] && ((a[0] == b[0] && Subsequence(a[1..], b[1..])) || Subsequence(a, b[1..])))
  }

  /** The ids among `keys` whose record belongs to `userId`, in `keys` order. */
  function OwnedIds(docs: Store, keys: seq<string>, userId: string): (ids: seq<string>)
    requires forall i | 0 <= i < |keys| :: keys[i] in docs
    ensures forall id :: id in ids <==> id in keys && docs[id].ownerId == Some(userId)
    ensures forall i | 0 <= i < |ids| :: ids[i] in docs
    ensures |ids| <= |keys|
    ensures Subsequence(ids, keys)
    decreases |keys|
  {
    if keys == [] then []
    else
      var rest := OwnedIds(docs, keys[1..], userId);
      if docs[keys[0]].ownerId == Some(userId) then [keys[0]] + rest else rest
  }

  predicate Distinct(s: seq<string>)
  {
    forall i, j | 0 <= i < j < |s| :: s[i] != s[j]
  }

  /** Filtering a duplicate-free listing keeps it duplicate-free. */
  lemma {:induction false} OwnedIdsDistinct(docs: Store, keys: seq<string>, userId: string)
    requires forall i | 0 <= i < |keys| :: keys[i] in docs
    requires Distinct(keys)
    ensures Distinct(OwnedIds(docs, keys, userId))
    decreases |keys|
  {
    if keys != [] {
      var rest := OwnedIds(docs, keys[1..], userId);
      OwnedIdsDistinct(docs, keys[1..], userId);
      assert keys[0] !in keys[1..];
      var ids := OwnedIds(docs, keys, userId);
      if docs[keys[0]].ownerId == Some(userId) {
        assert ids == [keys[0]] + rest;
        forall i, j | 0 <= i < j < |ids| ensures ids[i] != ids[j] {
          assert ids[j] == rest[j - 1] && rest[j - 1] in rest;
          if i > 0 {
            assert ids[i] == rest[i - 1];
          }
        }
      }
    }
  }

  /** The documents of `ids`, each with its id. */
  function Records(docs: Store, ids: seq<string>): (cs: seq<Campaign>)
    requires forall i | 0 <= i < |ids| :: ids[i] in docs
    ensures |cs| == |ids|
    ensures forall i | 0 <= i < |ids| :: cs[i] == WithId(docs[ids[i]], ids[i])
  {
    seq(|ids|, i requires 0 <= i < |ids| => WithId(docs[ids[i]], ids[i]))
  }

  /** A listing of the collection in `keys` order: every id, each once. */
  predicate Enumerates(docs: Store, keys: seq<string>)
  {
    && (forall i | 0 <= i < |keys| :: keys[i] in docs)
    && (forall id | id in docs :: id in keys)
    && Distinct(keys)
  }

  /** `getUserCampaigns` returns each campaign of the user exactly once, and
      no other. */
  lemma UserCampaignsExact(docs: Store, keys: seq<string>, userId: string)
    requires Enumerates(docs, keys)
    ensures var ids := OwnedIds(docs, keys, userId);
            && (forall id | id in docs :: (id in ids <==> docs[id].ownerId == Some(userId)))
            && Distinct(ids)
            && (forall c | c in Records(docs, ids) :: c.ownerId == Some(userId))
  {
    OwnedIdsDistinct(docs, keys, userId);
  }

  /** The firestore collection `campaigns`, as seen through the service. */
  class CampaignService {
    var docs: Store

    constructor (initial: Store)
      ensures docs == initial
    {
      docs := initial;
    }

    method CreateCampaign(data: CreateCampaignData, userId: string, newId: string, now: Timestamp,
                          writeFault: Option<string>) returns (r: Result<Campaign, FirebaseError>)
      requires newId !in docs
      modifies this
      ensures Step(r, docs) == Create(old(docs), data, userId, newId, now, writeFault)
    {
      if data.title == "" || data.ownerId == "" || data.groups.None? {
        return Err(FirebaseError(CreateFailed, CreateCode, MissingFieldsMessage));
      }
      if data.ownerId != userId {
        return Err(FirebaseError(CreateFailed, CreateCode, InvalidOwnerMessage));
      }
      var campaignData := NewRecord(data, now);
      if writeFault.Some? {
        return Err(FirebaseError(CreateFailed, CreateCode, writeFault.value));
      }
      docs := docs[newId := campaignData];
      r := Ok(WithId(campaignData, newId));
    }

    method GetCampaign(uuid: string, readFault: Option<string>) returns (r: Result<Option<Campaign>, FirebaseError>)
      ensures readFault.Some? ==> r == Err(FirebaseError(RetrieveFailed, RetrieveCode, readFault.value))
      ensures readFault.None? && uuid !in docs ==> r == Ok(None)
      ensures readFault.None? && uuid in docs ==>
                r.Ok? && r.value.Some? && r.value.value.(uuid := docs[uuid].uuid) == docs[uuid]
                && r.value.value.uuid == (if docs[uuid].uuid.Some? then docs[uuid].uuid else Some(uuid))
    {
      if readFault.Some? {
        return Err(FirebaseError(RetrieveFailed, RetrieveCode, readFault.value));
      }
      if uuid !in docs {
        return Ok(None);
      }
      r := Ok(Some(WithId(docs[uuid], uuid)));
    }

    method UpdateCampaign(uuid: string, data: UpdateCampaignData, userId: string, now: Timestamp,
                          readFault: Option<string>, writeFault: Option<string>)
      returns (r: Result<Campaign, FirebaseError>)
      modifies this
      ensures Step(r, docs) == Update(old(docs), uuid, data, userId, now, readFault, writeFault)
    {
      if readFault.Some? {
        return Err(FirebaseError(UpdateFailed, UpdateCode, readFault.value));
      }
      if uuid !in docs {
        return Err(FirebaseError(UpdateFailed, UpdateCode, NotFoundMessage));
      }
      var campaign := docs[uuid];
      if campaign.ownerId != Some(userId) {
        return Err(FirebaseError(UpdateFailed, UpdateCode, UnauthorizedMessage));
      }
      if writeFault.Some? {
        return Err(FirebaseError(UpdateFailed, UpdateCode, writeFault.value));
      }
      var updated := Overlay(campaign, data, now);
      docs := docs[uuid := updated];
      r := Ok(updated);
    }

    method GetUserCampaigns(userId: string, keys: seq<string>, readFault: Option<string>)
      returns (r: Result<seq<Campaign>, FirebaseError>)
      requires Enumerates(docs, keys)
      ensures readFault.Some? ==> r == Err(FirebaseError(ListFailed, ListCode, readFault.value))
      ensures readFault.None? ==> r == Ok(Records(docs, OwnedIds(docs, keys, userId)))
    {
      if readFault.Some? {
        return Err(FirebaseError(ListFailed, ListCode, readFault.value));
      }
      r := Ok(Records(docs, OwnedIds(docs, keys, userId)));
    }
  }
}
