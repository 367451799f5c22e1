/** The in-memory data service (`MockBackendService`): three collections, a session
    pointer, and a key/value store they are written through to. The clock
    (`Date.now()`) is a `now` parameter; the store is a value of type `Storage`. */
module Backend {
  import opened Wrappers
  import opened Text
  import opened Seqs
  import opened Types

  /** The errors the service throws, with their messages. */
  datatype BackendError = UnknownEmail | EmailTaken | UnknownUser

  function ErrorMessage(e: BackendError): (m: string)
    ensures m != ""
  {
    match e
    case UnknownEmail => "User not found. Please register first."
    case EmailTaken => "This email is already registered."
    case UnknownUser => "User not found"
  }

  /** Each error has its own message, so the page's text tells them apart. */
  lemma ErrorMessagesDistinct(a: BackendError, b: BackendError)
    requires ErrorMessage(a) == ErrorMessage(b)
    ensures a == b
  {
  }

  // ---------------------------------------------------------------------------
  // The persistent store

  /** What `localStorage.getItem(key)` yields for a table, seen through `JSON.parse`:
      no entry, the empty (falsy) string, text that does not parse, or an encoded value. */
  datatype Stored<T> = Missing | EmptyText | Malformed | Encoded(value: T)

  /** The four keys the service uses: three tables and the session id. */
  datatype Storage = Storage(
    users: Stored<seq<User>>,
    requests: Stored<seq<BloodRequest>>,
    history: Stored<seq<HistoryItem>>,
    session: Option<string>)

  /** `loadData(key, fallback)`: what `saveData` wrote is read back, whatever the
      fallback; a missing, empty or unparsable slot yields the fallback. */
  function LoadData<T>(stored: Stored<T>, fallback: T): (r: T)
    ensures stored.Encoded? ==> r == stored.value
    ensures !stored.Encoded? ==> r == fallback
  {
    if stored.Encoded? then stored.value else fallback
  }

  // ---------------------------------------------------------------------------
  // Seed data

  const DefaultUsers: seq<User> := [
    User("u1", "John Doe", "john@college.edu", "555-0101", DONOR, Some(O_POS), Some(true),
         Some(1697328000000), Some("STU-2024-001"), Some("North Campus"), Some(false)),
    User("u2", "Jane Smith", "jane@college.edu", "555-0102", REQUESTER, None, None,
         None, Some("STU-2024-002"), None, None)
  ]

  /** The seed requests; their creation times are taken from the clock at start-up:
      two open requests with distinct ids, one a day old and one created now. */
  function DefaultRequests(now: nat): (r: seq<BloodRequest>)
    ensures |r| == 2 && r[0].id != r[1].id
    ensures r[0].status == OPEN && r[1].status == OPEN
    ensures r[0].createdAt == now - DAY_MS && r[1].createdAt == now
  {
    [ BloodRequest("r1", "u2", "Jane Smith", A_POS, 2, "City General Hospital", "Downtown", Urgent,
                   "Urgent need for A+ blood for surgery.", OPEN, now - 86400000, Some("2.5 km")),
      BloodRequest("r2", "u3", "Admin Coord", O_NEG, 1, "University Medical Center", "On Campus", Critical,
                   "Critical emergency. O- donor needed immediately.", OPEN, now, Some("0.5 km")) ]
  }

  const DefaultHistory: seq<HistoryItem> := [
    HistoryItem(1, "u1", Donation, 1697328000000, "City General Hospital", 1, "Completed"),
    HistoryItem(2, "u1", Donation, 1687219200000, "Campus Blood Drive", 1, "Completed"),
    HistoryItem(3, "u2", Request, 1673308800000, "University Medical Center", 2, "Fulfilled")
  ]

  /** The seed data is consistent: the users have distinct ids and emails, the
      history is stored newest first and belongs to seed users, and John's last
      donation date is his latest donation entry. */
  lemma SeedDataConsistent()
    ensures DistinctIds(DefaultUsers) && DistinctEmails(DefaultUsers)
    ensures SortedByDateDesc(DefaultHistory)
    ensures forall h :: h in DefaultHistory ==> exists u :: u in DefaultUsers && u.id == h.userId
    ensures DefaultUsers[0].lastDonationDate == Some(DefaultHistory[0].date)
  {
    assert LowerCase("john@college.edu") == "john@college.edu";
    assert LowerCase("jane@college.edu") == "jane@college.edu";
    assert DefaultUsers[0] in DefaultUsers && DefaultUsers[1] in DefaultUsers;
  }

  // ---------------------------------------------------------------------------
  // Users: lookups, session restore, login, registration

  /** Emails are compared after lower-casing both sides. */
  predicate SameEmail(a: string, b: string)
  {
    LowerCase(a) == LowerCase(b)
  }

  /** No two users share an email, case-insensitively. */
  predicate DistinctEmails(users: seq<User>)
  {
    forall i, j :: 0 <= i < j < |users| ==> !SameEmail(users[i].email, users[j].email)
  }

  predicate DistinctIds(users: seq<User>)
  {
    forall i, j :: 0 <= i < j < |users| ==> users[i].id != users[j].id
  }

  /** `users.findIndex(u => u.id === id)`. */
  function UserIndex(users: seq<User>, id: string): int
  {
    FirstIndex(users, (u: User) => u.id == id)
  }

  /** `users.findIndex(u => u.email.toLowerCase() === email.toLowerCase())`. */
  function EmailIndex(users: seq<User>, email: string): int
  {
    FirstIndex(users, (u: User) => SameEmail(u.email, email))
  }

  /** The constructor's auto-login: a non-empty stored session id that names a user
      makes that user current. */
  function RestoreSession(users: seq<User>, session: Option<string>): (r: Option<User>)
    ensures r.Some? <==> session.Some? && session.value != "" &&
                         exists k :: 0 <= k < |users| && users[k].id == session.value
    ensures r.Some? ==> exists k :: 0 <= k < |users| && r.value == users[k] && users[k].id == session.value &&
                                    forall j :: 0 <= j < k ==> users[j].id != session.value
  {
    if session.None? || session.value == "" then None
    else
      var i := UserIndex(users, session.value);
      if i == -1 then None else Some(users[i])
  }

  /** A session id saved for a user is restored to that same user, provided ids are
      unique and the id is not the (falsy) empty string. */
  lemma RestoreSessionRoundTrip(users: seq<User>, u: User)
    requires DistinctIds(users) && u in users && u.id != ""
    ensures RestoreSession(users, Some(u.id)) == Some(u)
  {
    var k :| 0 <= k < |users| && users[k] == u;
    var i := UserIndex(users, u.id);
    assert i != -1 && users[i].id == u.id;
    assert i == k;
  }

  /** `login(email)`: the first user whose email matches, or `UnknownEmail`. */
  function LoginResult(users: seq<User>, email: string): (r: Result<User, BackendError>)
    ensures r.Ok? <==> exists k :: 0 <= k < |users| && SameEmail(users[k].email, email)
    ensures r.Ok? ==> exists k :: 0 <= k < |users| && r.value == users[k] && SameEmail(users[k].email, email) &&
                                  forall j :: 0 <= j < k ==> !SameEmail(users[j].email, email)
    ensures r.Err? ==> r.error == UnknownEmail
  {
    var i := EmailIndex(users, email);
    if i == -1 then Err(UnknownEmail) else Ok(users[i])
  }

  /** The generated user id `user_${Date.now()}`. */
  function UserId(now: nat): (id: string)
    ensures id != ""
    ensures |id| > 5 && id[..5] == "user_" && id[5..] == Decimal(now)
  {
    "user_" + Decimal(now)
  }

  /** Ids generated at different clock readings differ. */
  lemma UserIdInjective(a: nat, b: nat)
    requires UserId(a) == UserId(b)
    ensures a == b
  {
    assert UserId(a)[5..] == Decimal(a) && UserId(b)[5..] == Decimal(b);
    DecimalInjective(a, b);
  }

  /** `{ ...draft, id }`. */
  function NewUser(d: UserDraft, id: string): (u: User)
    ensures u.id == id && DraftOf(u) == d
  {
    User(id, d.name, d.email, d.phone, d.role, d.bloodGroup, d.isAvailable, d.lastDonationDate,
         d.collegeId, d.location, d.hasAllergies)
  }

  /** A user's fields other than the id. */
  function DraftOf(u: User): UserDraft
  {
    UserDraft(u.name, u.email, u.phone, u.role, u.bloodGroup, u.isAvailable, u.lastDonationDate,
              u.collegeId, u.location, u.hasAllergies)
  }

  /** `register(draft)`: refused when the email is already registered
      (case-insensitively), otherwise the draft with the fresh id. */
  function RegisterResult(users: seq<User>, d: UserDraft, id: string): (r: Result<User, BackendError>)
    ensures r.Err? <==> exists k :: 0 <= k < |users| && SameEmail(users[k].email, d.email)
    ensures r.Err? ==> r.error == EmailTaken
    ensures r.Ok? ==> r.value.id == id && DraftOf(r.value) == d
  {
    if EmailIndex(users, d.email) != -1 then Err(EmailTaken) else Ok(NewUser(d, id))
  }

  /** Registration keeps emails pairwise distinct. */
  lemma RegisterKeepsEmailsDistinct(users: seq<User>, d: UserDraft, id: string)
    requires DistinctEmails(users)
    requires RegisterResult(users, d, id).Ok?
    ensures DistinctEmails(users + [NewUser(d, id)])
  {
    var after := users + [NewUser(d, id)];
    forall i, j | 0 <= i < j < |after|
      ensures !SameEmail(after[i].email, after[j].email)
    {
      if j == |users| {
        assert after[i] == users[i];
      }
    }
  }

  /** Once an email is registered, registering it again (in any letter case) fails. */
  lemma SecondRegistrationFails(users: seq<User>, d: UserDraft, id: string, d': UserDraft, id': string)
    requires RegisterResult(users, d, id).Ok?
    requires SameEmail(d.email, d'.email)
    ensures RegisterResult(users + [NewUser(d, id)], d', id') == Err(EmailTaken)
  {
    var after := users + [NewUser(d, id)];
    assert SameEmail(after[|users|].email, d'.email);
  }

  /** After a registration, logging in with the same email (in any letter case)
      yields the registered user. */
  lemma LoginFindsRegisteredUser(users: seq<User>, d: UserDraft, id: string, email: string)
    requires RegisterResult(users, d, id).Ok?
    requires SameEmail(d.email, email)
    ensures LoginResult(users + [NewUser(d, id)], email) == Ok(NewUser(d, id))
  {
    var after := users + [NewUser(d, id)];
    var i := EmailIndex(after, email);
    assert SameEmail(after[|users|].email, email);
    if i < |users| {
      assert after[i] == users[i];
      assert SameEmail(users[i].email, d.email);
    }
  }

  // ---------------------------------------------------------------------------
  // Profile updates

  /** A field after a merge: the update's value where the update has the key, the
      old value elsewhere. */
  predicate Patched<T(==)>(before: T, key: Option<T>, after: T)
  {
    if key.Some? then after == key.value else after == before
  }

  /** `{ ...u, ...p }`: each key present in the update replaces the stored value,
      every other field is kept. */
  function Merge(u: User, p: UserPatch): (r: User)
    ensures Patched(u.id, p.id, r.id) && Patched(u.name, p.name, r.name) && Patched(u.email, p.email, r.email)
    ensures Patched(u.phone, p.phone, r.phone) && Patched(u.role, p.role, r.role)
    ensures Patched(u.bloodGroup, p.bloodGroup, r.bloodGroup) && Patched(u.isAvailable, p.isAvailable, r.isAvailable)
    ensures Patched(u.lastDonationDate, p.lastDonationDate, r.lastDonationDate)
    ensures Patched(u.collegeId, p.collegeId, r.collegeId) && Patched(u.location, p.location, r.location)
    ensures Patched(u.hasAllergies, p.hasAllergies, r.hasAllergies)
  {
    User(p.id.GetOr(u.id), p.name.GetOr(u.name), p.email.GetOr(u.email), p.phone.GetOr(u.phone),
         p.role.GetOr(u.role), p.bloodGroup.GetOr(u.bloodGroup), p.isAvailable.GetOr(u.isAvailable),
         p.lastDonationDate.GetOr(u.lastDonationDate), p.collegeId.GetOr(u.collegeId),
         p.location.GetOr(u.location), p.hasAllergies.GetOr(u.hasAllergies))
  }

  /** The merge is partial: an update with no keys changes nothing, applying the
      same update twice is the same as once, and an update of availability alone
      leaves every other field as it was. */
  lemma MergeIsPartial(u: User, p: UserPatch, available: Option<bool>)
    ensures Merge(u, EmptyPatch) == u
    ensures Merge(Merge(u, p), p) == Merge(u, p)
    ensures Merge(u, EmptyPatch.(isAvailable := Some(available))) == u.(isAvailable := available)
  {
  }

  /** `updateUserProfile(userId, patch)`: the merged record, or `UnknownUser`. */
  function UpdateResult(users: seq<User>, userId: string, p: UserPatch): (r: Result<User, BackendError>)
    ensures r.Err? <==> forall k :: 0 <= k < |users| ==> users[k].id != userId
    ensures r.Err? ==> r.error == UnknownUser
    ensures r.Ok? ==> exists k :: 0 <= k < |users| && users[k].id == userId && r.value == Merge(users[k], p) &&
                                  forall j :: 0 <= j < k ==> users[j].id != userId
  {
    var i := UserIndex(users, userId);
    if i == -1 then Err(UnknownUser) else Ok(Merge(users[i], p))
  }

  /** The user table after `updateUserProfile(userId, patch)`. */
  function UpdatedUsers(users: seq<User>, userId: string, p: UserPatch): (r: seq<User>)
    ensures |r| == |users|
    ensures (forall k :: 0 <= k < |users| ==> users[k].id != userId) ==> r == users
    ensures forall k :: 0 <= k < |users| && k != UserIndex(users, userId) ==> r[k] == users[k]
    ensures UpdateResult(users, userId, p).Ok? ==>
              r[UserIndex(users, userId)] == UpdateResult(users, userId, p).value
  {
    var i := UserIndex(users, userId);
    if i == -1 then users else users[i := Merge(users[i], p)]
  }

  /** The session user after `updateUserProfile(userId, patch)`: refreshed to the
      merged record exactly when the update succeeded and the session user has id
      `userId`. */
  function SessionAfterUpdate(current: Option<User>, users: seq<User>, userId: string, p: UserPatch): (r: Option<User>)
    ensures current.None? ==> r.None?
    ensures current.Some? && current.value.id == userId && UpdateResult(users, userId, p).Ok? ==>
              r == Some(UpdateResult(users, userId, p).value)
    ensures current.Some? && (current.value.id != userId || UpdateResult(users, userId, p).Err?) ==> r == current
  {
    if current.Some? && current.value.id == userId && UserIndex(users, userId) != -1
    then Some(Merge(users[UserIndex(users, userId)], p))
    else current
  }

  /** An update keeps emails distinct unless it sets an email some other user
      already has. */
  lemma UpdateKeepsEmailsDistinct(users: seq<User>, userId: string, p: UserPatch)
    requires DistinctEmails(users)
    requires p.email.Some? ==>
               forall k :: 0 <= k < |users| && k != UserIndex(users, userId) ==>
                 !SameEmail(users[k].email, p.email.value)
    ensures DistinctEmails(UpdatedUsers(users, userId, p))
  {
    var i := UserIndex(users, userId);
    var after := UpdatedUsers(users, userId, p);
    forall a, b | 0 <= a < b < |after|
      ensures !SameEmail(after[a].email, after[b].email)
    {
      if a == i || b == i {
        var other := if a == i then b else a;
        assert after[other] == users[other];
        if p.email.None? {
          assert after[i].email == users[i].email;
        }
      } else {
        assert after[a] == users[a] && after[b] == users[b];
      }
    }
  }

  /** The service does not re-check uniqueness on updates: an update that sets an
      email another user already has produces a duplicate. */
  lemma UpdateCanDuplicateEmail()
    ensures var users := [DefaultUsers[0], DefaultUsers[1]];
            var p := EmptyPatch.(email := Some("JOHN@college.edu"));
            DistinctEmails(users) && !DistinctEmails(UpdatedUsers(users, "u2", p))
  {
    var users := [DefaultUsers[0], DefaultUsers[1]];
    var p := EmptyPatch.(email := Some("JOHN@college.edu"));
    assert LowerCase("john@college.edu") == "john@college.edu";
    assert LowerCase("JOHN@college.edu") == "john@college.edu";
    assert LowerCase("jane@college.edu") == "jane@college.edu";
    assert UserIndex(users, "u2") == 1;
    var after := UpdatedUsers(users, "u2", p);
    assert after[0].email == "john@college.edu" && after[1].email == "JOHN@college.edu";
  }

  // ---------------------------------------------------------------------------
  // Requests

  /** The generated request id `req_${Date.now()}`. */
  function RequestId(now: nat): (id: string)
    ensures |id| > 4 && id[..4] == "req_" && id[4..] == Decimal(now)
  {
    "req_" + Decimal(now)
  }

  /** Requests created at different clock readings get different ids. */
  lemma RequestIdInjective(a: nat, b: nat)
    requires RequestId(a) == RequestId(b)
    ensures a == b
  {
    assert RequestId(a)[4..] == Decimal(a) && RequestId(b)[4..] == Decimal(b);
    DecimalInjective(a, b);
  }

  /** A request's fields that its creator supplies. */
  function RequestDraftOf(r: BloodRequest): RequestDraft
  {
    RequestDraft(r.requesterId, r.requesterName, r.bloodGroup, r.units, r.hospitalName,
                 r.location, r.urgency, r.description)
  }

  /** The record `createRequest` stores: the draft, a fresh id, the creation time,
      status OPEN and the placeholder distance. */
  function StampRequest(d: RequestDraft, now: nat): (r: BloodRequest)
    ensures RequestDraftOf(r) == d
    ensures r.status == OPEN && r.id == RequestId(now) && r.createdAt == now
    ensures r.distance == Some("0.8 km")
  {
    BloodRequest(RequestId(now), d.requesterId, d.requesterName, d.bloodGroup, d.units,
                 d.hospitalName, d.location, d.urgency, d.description, OPEN, now, Some("0.8 km"))
  }

  // ---------------------------------------------------------------------------
  // History

  /** A history entry's fields other than its id. */
  function HistoryDraftOf(h: HistoryItem): HistoryDraft
  {
    HistoryDraft(h.userId, h.kind, h.date, h.location, h.units, h.status)
  }

  /** The record `addHistoryItem` stores: the draft with `Date.now()` as its id. */
  function StampHistory(d: HistoryDraft, now: nat): (h: HistoryItem)
    ensures HistoryDraftOf(h) == d && h.id == now
  {
    HistoryItem(now, d.userId, d.kind, d.date, d.location, d.units, d.status)
  }

  predicate SortedByDateDesc(s: seq<HistoryItem>)
  {
    forall i, j :: 0 <= i < j < |s| ==> s[i].date >= s[j].date
  }

  /** Putting an entry in front of a newest-first list keeps it newest-first when
      the entry is not older than the list's head. */
  lemma ConsSorted(a: HistoryItem, t: seq<HistoryItem>)
    requires SortedByDateDesc(t)
    requires t == [] || a.date >= t[0].date
    ensures SortedByDateDesc([a] + t)
  {
    var r := [a] + t;
    forall i, j | 0 <= i < j < |r| ensures r[i].date >= r[j].date {
      if i == 0 {
        assert r[j] == t[j - 1];
      } else {
        assert r[i] == t[i - 1] && r[j] == t[j - 1];
      }
    }
  }

  /** Inserts `x` in front of the first entry that is not newer than it. */
  function InsertByDate(x: HistoryItem, s: seq<HistoryItem>): (r: seq<HistoryItem>)
    ensures multiset(r) == multiset(s) + multiset{x}
    ensures r[0] == x || (s != [] && r[0] == s[0])
    ensures SortedByDateDesc(s) ==> SortedByDateDesc(r)
  {
    if s == [] || x.date >= s[0].date then
      if SortedByDateDesc(s) then ConsSorted(x, s); [x] + s else [x] + s
    else
      var rest := InsertByDate(x, s[1..]);
      assert s == [s[0]] + s[1..];
      if SortedByDateDesc(s) then
        assert SortedByDateDesc(s[1..]);
        ConsSorted(s[0], rest);
        [s[0]] + rest
      else [s[0]] + rest
  }

  /** `sort((a, b) => b.date - a.date)`: newest first, stable on equal dates. */
  function SortByDateDesc(s: seq<HistoryItem>): (r: seq<HistoryItem>)
    ensures multiset(r) == multiset(s)
    ensures SortedByDateDesc(r)
  {
    if s == [] then []
    else
      assert s == [s[0]] + s[1..];
      InsertByDate(s[0], SortByDateDesc(s[1..]))
  }

  /** The entries dated `d`, in order. */
  function OnDate(s: seq<HistoryItem>, d: Millis): seq<HistoryItem>
  {
    Filter(s, (h: HistoryItem) => h.date == d)
  }

  /** Filtering by date distributes over putting one entry in front. */
  lemma OnDateCons(a: HistoryItem, t: seq<HistoryItem>, d: Millis)
    ensures OnDate([a] + t, d) == (if a.date == d then [a] else []) + OnDate(t, d)
  {
    var s := [a] + t;
    assert s[0] == a && s[1..] == t;
  }

  /** Putting an entry newer than `x` in front keeps the date-`d` entries of both
      sides in step. */
  lemma OnDateConsNewer(a: HistoryItem, x: HistoryItem, rest: seq<HistoryItem>, t: seq<HistoryItem>, d: Millis)
    requires a.date > x.date
    requires OnDate(rest, d) == (if x.date == d then [x] else []) + OnDate(t, d)
    ensures OnDate([a] + rest, d) == (if x.date == d then [x] else []) + OnDate([a] + t, d)
  {
    OnDateCons(a, rest, d);
    OnDateCons(a, t, d);
    if a.date == d {
      assert x.date != d;
    }
  }

  lemma {:induction false} InsertKeepsTieOrder(x: HistoryItem, s: seq<HistoryItem>, d: Millis)
    ensures OnDate(InsertByDate(x, s), d) == (if x.date == d then [x] else []) + OnDate(s, d)
  {
    if s == [] || x.date >= s[0].date {
      OnDateCons(x, s, d);
    } else {
      var rest := InsertByDate(x, s[1..]);
      assert InsertByDate(x, s) == [s[0]] + rest;
      InsertKeepsTieOrder(x, s[1..], d);
      OnDateConsNewer(s[0], x, rest, s[1..], d);
      assert [s[0]] + s[1..] == s;
    }
  }

  /** The sort is stable: entries with equal dates keep their relative order. */
  lemma {:induction false} SortKeepsTieOrder(s: seq<HistoryItem>, d: Millis)
    ensures OnDate(SortByDateDesc(s), d) == OnDate(s, d)
  {
    if s != [] {
      SortKeepsTieOrder(s[1..], d);
      InsertKeepsTieOrder(s[0], SortByDateDesc(s[1..]), d);
    }
  }

  /** The entries owned by `userId`, in stored order. */
  function OwnedBy(history: seq<HistoryItem>, userId: string): seq<HistoryItem>
  {
    Filter(history, (h: HistoryItem) => h.userId == userId)
  }

  /** `getHistory(userId)`: exactly the user's entries (each as often as stored),
      newest first. */
  function HistoryFor(history: seq<HistoryItem>, userId: string): (r: seq<HistoryItem>)
    ensures SortedByDateDesc(r)
    ensures forall h :: multiset(r)[h] == if h.userId == userId then multiset(history)[h] else 0
    ensures forall h :: h in r <==> h in history && h.userId == userId
  {
    FilterCount(history, (h: HistoryItem) => h.userId == userId);
    SortByDateDesc(OwnedBy(history, userId))
  }

  /** Among a user's entries with the same date, `getHistory` keeps the stored order. */
  lemma HistoryForKeepsTieOrder(history: seq<HistoryItem>, userId: string, d: Millis)
    ensures OnDate(HistoryFor(history, userId), d) == OnDate(OwnedBy(history, userId), d)
  {
    SortKeepsTieOrder(OwnedBy(history, userId), d);
  }

  // ---------------------------------------------------------------------------
  // The service object

  class MockBackendService {
    var users: seq<User>
    var requests: seq<BloodRequest>
    var history: seq<HistoryItem>
    var currentUser: Option<User>
    /** The key/value store the collections are written through to. */
    var storage: Storage
    /** The clock reading at start-up, which dates the seed requests. */
    const bootTime: nat

    /** Reloading the store (as a restart at `bootTime` would) gives back exactly
        the in-memory collections. */
    ghost predicate Persisted()
      reads this
    {
      && users == LoadData(storage.users, DefaultUsers)
      && requests == LoadData(storage.requests, DefaultRequests(bootTime))
      && history == LoadData(storage.history, DefaultHistory)
    }

    /** The current user, if any, is one of the stored users. */
    ghost predicate SessionValid()
      reads this
    {
      currentUser.Some? ==> currentUser.value in users
    }

    ghost predicate Valid()
      reads this
    {
      Persisted() && SessionValid()
    }

    /** Loads the three tables (falling back to the seed data) and restores the session. */
    constructor (stored: Storage, now: nat)
      ensures Valid()
      ensures storage == stored && bootTime == now
      ensures users == LoadData(stored.users, DefaultUsers)
      ensures requests == LoadData(stored.requests, DefaultRequests(now))
      ensures history == LoadData(stored.history, DefaultHistory)
      ensures currentUser == RestoreSession(users, stored.session)
    {
      bootTime := now;
      storage := stored;
      users := LoadData(stored.users, DefaultUsers);
      requests := LoadData(stored.requests, DefaultRequests(now));
      history := LoadData(stored.history, DefaultHistory);
      currentUser := None;
      new;
      if stored.session.Some? && stored.session.value != "" {
        var i := UserIndex(users, stored.session.value);
        if i != -1 {
          currentUser := Some(users[i]);
        }
      }
    }

    method Login(email: string) returns (r: Result<User, BackendError>)
      requires Valid()
      modifies this
      ensures Valid()
      ensures r == LoginResult(old(users), email)
      ensures r.Ok? ==> currentUser == Some(r.value) && storage == old(storage).(session := Some(r.value.id))
      ensures r.Err? ==> currentUser == old(currentUser) && storage == old(storage)
      ensures users == old(users) && requests == old(requests) && history == old(history)
    {
      var i := EmailIndex(users, email);
      if i == -1 {
        return Err(UnknownEmail);
      }
      var u := users[i];
      currentUser := Some(u);
      storage := storage.(session := Some(u.id));
      return Ok(u);
    }

    method Register(d: UserDraft, now: nat) returns (r: Result<User, BackendError>)
      requires Valid()
      modifies this
      ensures Valid()
      ensures r == RegisterResult(old(users), d, UserId(now))
      ensures r.Ok? ==> && users == old(users) + [r.value]
                        && currentUser == Some(r.value)
                        && storage == old(storage).(users := Encoded(users), session := Some(r.value.id))
      ensures r.Err? ==> users == old(users) && currentUser == old(currentUser) && storage == old(storage)
      ensures requests == old(requests) && history == old(history)
      ensures DistinctEmails(old(users)) ==> DistinctEmails(users)
    {
      if EmailIndex(users, d.email) != -1 {
        return Err(EmailTaken);
      }
      var u := NewUser(d, UserId(now));
      if DistinctEmails(users) {
        RegisterKeepsEmailsDistinct(users, d, UserId(now));
      }
      users := users + [u];
      storage := storage.(users := Encoded(users));
      currentUser := Some(u);
      storage := storage.(session := Some(u.id));
      return Ok(u);
    }

    method GetCurrentUser() returns (u: Option<User>)
      requires Valid()
      ensures u == currentUser
      ensures u.Some? ==> u.value in users
    {
      return currentUser;
    }

    method Logout()
      requires Valid()
      modifies this
      ensures Valid()
      ensures currentUser == None && storage == old(storage).(session := None)
      ensures users == old(users) && requests == old(requests) && history == old(history)
    {
      currentUser := None;
      storage := storage.(session := None);
    }

    /** A copy of the stored requests, newest first. */
    method GetRequests() returns (rs: seq<BloodRequest>)
      ensures rs == requests
    {
      return requests;
    }

    method CreateRequest(d: RequestDraft, now: nat) returns (r: BloodRequest)
      requires Valid()
      modifies this
      ensures Valid()
      ensures r == StampRequest(d, now)
      ensures requests == [r] + old(requests)
      ensures storage == old(storage).(requests := Encoded(requests))
      ensures users == old(users) && history == old(history) && currentUser == old(currentUser)
    {
      r := StampRequest(d, now);
      requests := [r] + requests;
      storage := storage.(requests := Encoded(requests));
    }

    method UpdateUserProfile(userId: string, p: UserPatch) returns (r: Result<User, BackendError>)
      requires Valid()
      modifies this
      ensures Valid()
      ensures r == UpdateResult(old(users), userId, p)
      ensures users == UpdatedUsers(old(users), userId, p)
      ensures r.Ok? ==> storage == old(storage).(users := Encoded(users))
      ensures r.Err? ==> storage == old(storage)
      ensures currentUser == SessionAfterUpdate(old(currentUser), old(users), userId, p)
      ensures requests == old(requests) && history == old(history)
    {
      var i := UserIndex(users, userId);
      if i == -1 {
        return Err(UnknownUser);
      }
      ghost var before := users;
      users := users[i := Merge(users[i], p)];
      storage := storage.(users := Encoded(users));
      if currentUser.Some? && currentUser.value.id == userId {
        currentUser := Some(users[i]);
      } else if currentUser.Some? {
        ghost var j :| 0 <= j < |before| && before[j] == currentUser.value;
        assert j != i;
        assert users[j] == currentUser.value;
      }
      return Ok(users[i]);
    }

    method GetHistory(userId: string) returns (items: seq<HistoryItem>)
      ensures items == HistoryFor(history, userId)
    {
      return SortByDateDesc(OwnedBy(history, userId));
    }

    method AddHistoryItem(d: HistoryDraft, now: nat) returns (h: HistoryItem)
      requires Valid()
      modifies this
      ensures Valid()
      ensures h == StampHistory(d, now)
      ensures history == [h] + old(history)
      ensures storage == old(storage).(history := Encoded(history))
      ensures users == old(users) && requests == old(requests) && currentUser == old(currentUser)
    {
      h := StampHistory(d, now);
      history := [h] + history;
      storage := storage.(history := Encoded(history));
    }
  }

  /** A restart over the store the service has written gives back the session it
      saved: once `login` or `register` has saved user `u` as the session, loading
      the users table and the session key again (as the constructor does) makes `u`
      current, provided ids are unique. */
  lemma RestartRestoresSession(b: MockBackendService, u: User)
    requires b.Valid() && DistinctIds(b.users)
    requires u in b.users && u.id != "" && b.storage.session == Some(u.id)
    ensures RestoreSession(LoadData(b.storage.users, DefaultUsers), b.storage.session) == Some(u)
  {
    RestoreSessionRoundTrip(b.users, u);
  }
}
