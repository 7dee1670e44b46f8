/** The records the campaign code passes around: the Firestore campaign
    document, the create/update payloads and the service error type. */
module CampaignTypes {
  import opened Wrappers

  /** A Firestore `Timestamp`, abstracted to the clock reading it was taken at. */
  type Timestamp = int

  /** A campaign document. Three fields may be absent, and each is optional:
      `uuid` (the stored record omits it); `ownerId` (an absent owner is
      never equal to a user id, not even to the empty one, so it passes
      neither the update's owner check nor the owner query); and `groups`
      (which the create check requires to be a list; `None` stands for
      "absent or not an array"). The code reads `title` and `description`
      only through `|| ''` or a truthiness test, so those are plain strings,
      the empty string standing also for an absent field. */
  datatype Campaign = Campaign(
    uuid: Option<string>,
    ownerId: Option<string>,
    title: string,
    description: string,
    groups: Option<seq<string>>,
    createdAt: Timestamp,
    updatedAt: Timestamp)

  /** `Omit<Campaign, 'uuid' | 'createdAt' | 'updatedAt'>`. */
  datatype CreateCampaignData = CreateCampaignData(
    ownerId: string,
    title: string,
    description: string,
    groups: Option<seq<string>>)

  /** `Partial<Omit<Campaign, 'uuid' | 'createdAt' | 'updatedAt' | 'ownerId'>>`:
      `None` means the field is not part of the update. There is no `ownerId`. */
  datatype UpdateCampaignData = UpdateCampaignData(
    title: Option<string>,
    description: Option<string>,
    groups: Option<seq<string>>)

  /** The service's error class: a fixed message and code per operation, and
      the message of the error it wraps. */
  datatype FirebaseError = FirebaseError(message: string, code: string, cause: string)
}
