/** `useCampaign`: the reactive campaign state of the UI and its four actions.

    The state is an object whose fields the actions assign. The signed-in
    user id (`authStore.userId`) and what the awaited service call resolves
    with or rejects with (`reply`, a rejection given by its message) are
    parameters of each action. */
module UseCampaign {
  import opened Wrappers
  import opened CampaignTypes

  const NotAuthenticatedMessage := "User not authenticated"

  /** A user is signed in: the auth store holds a non-empty user id. */
  predicate SignedIn(userId: Option<string>)
  {
    userId.Some? && userId.value != ""
  }

  /** The campaign carries exactly this uuid; one without a uuid matches none. */
  predicate HasUuid(c: Campaign, uuid: string)
  {
    c.uuid == Some(uuid)
  }

  /** The first position of the list whose campaign carries the uuid, or -1
      when there is none (useCampaign.ts line 82). */
  function FindIndex(cs: seq<Campaign>, uuid: string): (i: int)
    ensures -1 <= i < |cs|
    ensures i == -1 <==> forall k | 0 <= k < |cs| :: !HasUuid(cs[k], uuid)
    ensures 0 <= i ==> HasUuid(cs[i], uuid) && forall k | 0 <= k < i :: !HasUuid(cs[k], uuid)
    decreases |cs|
  {
    if cs == [] then -1
    else if HasUuid(cs[0], uuid) then 0
    else
      var j := FindIndex(cs[1..], uuid);
      if j == -1 then -1 else j + 1
  }

  /** The list after an update: the first campaign with the uuid is replaced
      and nothing else changes. */
  function ReplaceFirst(cs: seq<Campaign>, uuid: string, c: Campaign): (r: seq<Campaign>)
    ensures |r| == |cs|
    ensures forall k | 0 <= k < |cs| && k != FindIndex(cs, uuid) :: r[k] == cs[k]
    ensures FindIndex(cs, uuid) != -1 ==> r[FindIndex(cs, uuid)] == c
    ensures FindIndex(cs, uuid) == -1 ==> r == cs
  {
    var index := FindIndex(cs, uuid);
    if index != -1 then cs[index := c] else cs
  }

  /** The campaign a successful update returns carries the stored record's
      uuid, which is absent for records the service created. Replacing with
      such a campaign moves the next lookup of the same uuid elsewhere: to a
      later duplicate, or to nothing. */
  lemma {:induction false} ReplacedLosesUuid(cs: seq<Campaign>, uuid: string, c: Campaign)
    requires FindIndex(cs, uuid) != -1 && !HasUuid(c, uuid)
    ensures var after := ReplaceFirst(cs, uuid, c);
            FindIndex(after, uuid) == -1 || FindIndex(after, uuid) > FindIndex(cs, uuid)
  {
    var i := FindIndex(cs, uuid);
    var after := ReplaceFirst(cs, uuid, c);
    var j := FindIndex(after, uuid);
    if j != -1 {
      assert j != i;
    }
  }

  /** `currentCampaign` after an update: replaced only when its uuid matches. */
  function UpdateCurrent(current: Option<Campaign>, uuid: string, c: Campaign): (r: Option<Campaign>)
    ensures current.Some? && HasUuid(current.value, uuid) ==> r == Some(c)
    ensures !(current.Some? && HasUuid(current.value, uuid)) ==> r == current
  {
    if current.Some? && HasUuid(current.value, uuid) then Some(c) else current
  }

  /** The refs returned by `useCampaign()`. */
  class Composable {
    var campaigns: seq<Campaign>
    var currentCampaign: Option<Campaign>
    var isLoading: bool
    var error: Option<string>

    constructor ()
      ensures campaigns == [] && currentCampaign.None? && !isLoading && error.None?
    {
      campaigns, currentCampaign, isLoading, error := [], None, false, None;
    }

    method FetchUserCampaigns(userId: Option<string>, reply: Result<seq<Campaign>, string>)
      returns (r: Result<(), string>)
      modifies this
      ensures !SignedIn(userId) ==> r == Err(NotAuthenticatedMessage) && unchanged(this)
      ensures SignedIn(userId) ==> !isLoading && currentCampaign == old(currentCampaign)
      ensures SignedIn(userId) && reply.Ok? ==> r == Ok(()) && campaigns == reply.value && error.None?
      ensures SignedIn(userId) && reply.Err? ==>
                r == Err(reply.error) && error == Some(reply.error) && campaigns == old(campaigns)
    {
      if !SignedIn(userId) {
        return Err(NotAuthenticatedMessage);
      }
      isLoading := true;
      error := None;
      match reply {
        case Ok(list) =>
          campaigns := list;
          r := Ok(());
        case Err(m) =>
          error := Some(m);
          r := Err(m);
      }
      isLoading := false;
    }

    method GetCampaign(uuid: string, reply: Result<Option<Campaign>, string>)
      returns (r: Result<Option<Campaign>, string>)
      modifies this
      ensures r == reply
      ensures !isLoading && campaigns == old(campaigns)
      ensures reply.Ok? ==> error.None?
      ensures reply.Ok? && reply.value.Some? ==> currentCampaign == reply.value
      ensures reply.Ok? && reply.value.None? ==> currentCampaign == old(currentCampaign)
      ensures reply.Err? ==> error == Some(reply.error) && currentCampaign == old(currentCampaign)
    {
      isLoading := true;
      error := None;
      match reply {
        case Ok(found) =>
          if found.Some? {
            currentCampaign := found;
          }
          r := Ok(found);
        case Err(m) =>
          error := Some(m);
          r := Err(m);
      }
      isLoading := false;
    }

    method CreateCampaign(data: CreateCampaignData, userId: Option<string>, reply: Result<Campaign, string>)
      returns (r: Result<Campaign, string>)
      modifies this
      ensures !SignedIn(userId) ==> r == Err(NotAuthenticatedMessage) && unchanged(this)
      ensures SignedIn(userId) ==> r == reply && !isLoading && currentCampaign == old(currentCampaign)
      ensures SignedIn(userId) && reply.Ok? ==> campaigns == old(campaigns) + [reply.value] && error.None?
      ensures SignedIn(userId) && reply.Err? ==> campaigns == old(campaigns) && error == Some(reply.error)
    {
      if !SignedIn(userId) {
        return Err(NotAuthenticatedMessage);
      }
      isLoading := true;
      error := None;
      match reply {
        case Ok(campaign) =>
          campaigns := campaigns + [campaign];
          r := Ok(campaign);
        case Err(m) =>
          error := Some(m);
          r := Err(m);
      }
      isLoading := false;
    }

    method UpdateCampaign(uuid: string, data: UpdateCampaignData, userId: Option<string>, reply: Result<Campaign, string>)
      returns (r: Result<Campaign, string>)
      modifies this
      ensures !SignedIn(userId) ==> r == Err(NotAuthenticatedMessage) && unchanged(this)
      ensures SignedIn(userId) ==> r == reply && !isLoading
      ensures SignedIn(userId) && reply.Ok? ==>
                && campaigns == ReplaceFirst(old(campaigns), uuid, reply.value)
                && currentCampaign == UpdateCurrent(old(currentCampaign), uuid, reply.value)
                && error.None?
      ensures SignedIn(userId) && reply.Err? ==>
                && campaigns == old(campaigns) && currentCampaign == old(currentCampaign)
                && error == Some(reply.error)
    {
      if !SignedIn(userId) {
        return Err(NotAuthenticatedMessage);
      }
      isLoading := true;
      error := None;
      match reply {
        case Ok(updatedCampaign) =>
          var index := FindIndex(campaigns, uuid);
          if index != -1 {
            campaigns := campaigns[index := updatedCampaign];
          }
          if currentCampaign.Some? && HasUuid(currentCampaign.value, uuid) {
            currentCampaign := Some(updatedCampaign);
          }
          r := Ok(updatedCampaign);
        case Err(m) =>
          error := Some(m);
          r := Err(m);
      }
      isLoading := false;
    }
  }
}
