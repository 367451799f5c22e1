/** The entities shared by the backend service and the pages. Dates and timestamps
    are epoch milliseconds; optional fields are `Option`s. */
module Types {
  import opened Wrappers

  /** Milliseconds since the epoch (what `Date.getTime()` returns). */
  type Millis = int

  datatype BloodGroup = A_POS | A_NEG | B_POS | B_NEG | AB_POS | AB_NEG | O_POS | O_NEG

  datatype UserRole = DONOR | REQUESTER | ADMIN

  datatype RequestUrgency = Normal | Urgent | Critical

  datatype User = User(
    id: string,
    name: string,
    email: string,
    phone: string,
    role: UserRole,
    bloodGroup: Option<BloodGroup>,
    isAvailable: Option<bool>,
    lastDonationDate: Option<Millis>,
    collegeId: Option<string>,
    location: Option<string>,
    hasAllergies: Option<bool>)

  /** `Omit<User, 'id'>`: what registration receives. */
  datatype UserDraft = UserDraft(
    name: string,
    email: string,
    phone: string,
    role: UserRole,
    bloodGroup: Option<BloodGroup>,
    isAvailable: Option<bool>,
    lastDonationDate: Option<Millis>,
    collegeId: Option<string>,
    location: Option<string>,
    hasAllergies: Option<bool>)

  /** `Partial<User>`: `None` is a key absent from the update object. An optional
      field may also be present with the value `undefined` (`Some(None)`), which the
      object spread copies over the stored value. */
  datatype UserPatch = UserPatch(
    id: Option<string>,
    name: Option<string>,
    email: Option<string>,
    phone: Option<string>,
    role: Option<UserRole>,
    bloodGroup: Option<Option<BloodGroup>>,
    isAvailable: Option<Option<bool>>,
    lastDonationDate: Option<Option<Millis>>,
    collegeId: Option<Option<string>>,
    location: Option<Option<string>>,
    hasAllergies: Option<Option<bool>>)

  /** The update object with no keys. */
  const EmptyPatch := UserPatch(None, None, None, None, None, None, None, None, None, None, None)

  datatype RequestStatus = OPEN | FULFILLED | CANCELLED

  datatype BloodRequest = BloodRequest(
    id: string,
    requesterId: string,
    requesterName: string,
    bloodGroup: BloodGroup,
    units: int,
    hospitalName: string,
    location: string,
    urgency: RequestUrgency,
    description: string,
    status: RequestStatus,
    createdAt: Millis,
    distance: Option<string>)

  /** `Omit<BloodRequest, 'id' | 'createdAt' | 'status' | 'distance'>`. */
  datatype RequestDraft = RequestDraft(
    requesterId: string,
    requesterName: string,
    bloodGroup: BloodGroup,
    units: int,
    hospitalName: string,
    location: string,
    urgency: RequestUrgency,
    description: string)

  datatype HistoryKind = Donation | Request

  /** A history entry. Its `date` is a calendar day, held as the millisecond
      instant of that day's UTC midnight (how `new Date('YYYY-MM-DD')` reads it). */
  datatype HistoryItem = HistoryItem(
    id: int,
    userId: string,
    kind: HistoryKind,
    date: Millis,
    location: string,
    units: int,
    status: string)

  /** `Omit<HistoryItem, 'id'>`. */
  datatype HistoryDraft = HistoryDraft(
    userId: string,
    kind: HistoryKind,
    date: Millis,
    location: string,
    units: int,
    status: string)

  const DAY_MS: int := 86400000

  /** `new Date(now).toISOString().split('T')[0]`, read back as a date: the UTC
      midnight that starts the day containing `now`. */
  function DayOf(now: nat): (d: Millis)
    ensures d <= now < d + DAY_MS
    ensures d % DAY_MS == 0
  {
    now - now % DAY_MS
  }
}
