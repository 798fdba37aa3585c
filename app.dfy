/** The application shell of `App.tsx`: the shared state restored from and saved to the
    browser's local storage (donations excluded), the admin session flag, the login
    that calls the admin endpoint and merges the cloud's donations into the state, and
    the dashboard's edits to updates and event status with the notifications they raise. */
module App {
  import opened Wrappers
  import opened Strings
  import opened Types
  import opened Store
  import opened AdminAuth
  import opened Appwrite
  import opened Crypto

  const SessionActive: string := "active"
  const WaitMessage: string := "Please wait and try again."
  const TooManyPrefix: string := "Too many failed attempts. "
  const InvalidCredentialsMessage: string := "Invalid admin credentials"
  const NetworkFailureMessage: string := "Authentication failed. Please check your connection and try again."

  // ================================================================ persisted state

  /** What is written under `community_event_state`: the state without its donations,
      which live only in the database. */
  function PersistedState(s: AppState): (p: AppState)
    ensures p.donations == []
    ensures p.updates == s.updates && p.schedule == s.schedule && p.eventInfo == s.eventInfo
  {
    s.(donations := [])
  }

  /** The state at start-up: the saved state with its donations emptied, or the initial
      state when nothing (or an empty text) is saved. */
  function LoadState(saved: Option<AppState>, initial: AppState): (s: AppState)
    ensures saved.Some? ==> s.donations == [] && s == PersistedState(saved.value)
    ensures saved.None? ==> s == initial
  {
    match saved
    case None => initial
    case Some(parsed) => parsed.(donations := [])
  }

  /** Reloading the page restores everything the state held except its donations. */
  lemma ReloadKeepsAllButDonations(s: AppState, initial: AppState)
    ensures LoadState(Some(PersistedState(s)), initial) == s.(donations := [])
    ensures PersistedState(LoadState(Some(PersistedState(s)), initial)) == PersistedState(s)
  {
  }

  /** The admin flag at start-up: set only when `admin_session` holds `"active"`. */
  function AdminAtLoad(session: Option<string>): (admin: bool)
    ensures admin <==> session == Some(SessionActive)
  {
    session.Some? && session.value == SessionActive
  }

  /** A login stores the session token, 64 hexadecimal digits, which is never the text the
      start-up check looks for: after a reload the administrator is logged out. */
  lemma StoredTokenNeverRestoresSession(random: seq<byte>)
    requires |random| == TokenBytes
    ensures !AdminAtLoad(Some(GenerateSessionToken(random)))
  {
    assert |GenerateSessionToken(random)| != |SessionActive|;
  }

  // ================================================================ merging the cloud's donations

  /** The pass ids of a list of donations. */
  function PassIds(ds: seq<Donation>): (ids: set<string>)
    ensures forall d :: d in ds ==> d.passId in ids
    ensures forall p :: p in ids ==> exists d :: d in ds && d.passId == p
  {
    set d | d in ds :: d.passId
  }

  /** The donations of `cloud`, in order, whose pass id is not in `ids`. */
  function FilterNew(cloud: seq<Donation>, ids: set<string>): (r: seq<Donation>)
    ensures |r| <= |cloud|
  {
    if cloud == [] then []
    else (if cloud[0].passId in ids then [] else [cloud[0]]) + FilterNew(cloud[1..], ids)
  }

  /** A donation is kept exactly when it is in `cloud` and its pass id is not in `ids`. */
  lemma {:induction false} FilterNewMembers(cloud: seq<Donation>, ids: set<string>)
    ensures forall d :: d in FilterNew(cloud, ids) <==> d in cloud && d.passId !in ids
  {
    if cloud != [] {
      FilterNewMembers(cloud[1..], ids);
      assert cloud == [cloud[0]] + cloud[1..];
    }
  }

  /** The merge of the login: the cloud's donations not yet held (by pass id), ahead of the
      ones held, which keep their order at the end. */
  function MergeCloud(prev: seq<Donation>, cloud: seq<Donation>): (r: seq<Donation>)
    ensures |r| >= |prev|
    ensures forall i :: 0 <= i < |prev| ==> r[|r| - |prev| + i] == prev[i]
  {
    FilterNew(cloud, PassIds(prev)) + prev
  }

  /** Filtering a single donation keeps it exactly when its pass id is not in `ids`. */
  lemma FilterNewSingle(d: Donation, ids: set<string>)
    ensures FilterNew([d], ids) == if d.passId in ids then [] else [d]
  {
    assert [d][1..] == [];
  }

  /** Filtering a list that starts with `d` filters `d`, then the rest. */
  lemma FilterNewCons(d: Donation, rest: seq<Donation>, ids: set<string>)
    ensures FilterNew([d] + rest, ids) == FilterNew([d], ids) + FilterNew(rest, ids)
  {
    assert ([d] + rest)[1..] == rest && [d][1..] == [];
  }

  /** Filtering distributes over concatenation, so the kept donations keep their order. */
  lemma {:induction false} FilterNewAppend(a: seq<Donation>, b: seq<Donation>, ids: set<string>)
    ensures FilterNew(a + b, ids) == FilterNew(a, ids) + FilterNew(b, ids)
  {
    if a == [] {
      assert a + b == b;
    } else {
      var t := a[1..];
      FilterNewAppend(t, b, ids);
      assert a == [a[0]] + t && a + b == [a[0]] + (t + b);
      FilterNewCons(a[0], t + b, ids);
      FilterNewCons(a[0], t, ids);
    }
  }

  /** Every merged donation was held or comes from the cloud, the new ones (at the front)
      are cloud donations whose pass ids were not held, and every cloud pass id is held
      after the merge. */
  lemma MergeCloudMembers(prev: seq<Donation>, cloud: seq<Donation>)
    ensures var r := MergeCloud(prev, cloud);
            && (forall d :: d in r ==> d in prev || d in cloud)
            && (forall d :: d in r[..|r| - |prev|] ==> d in cloud && d.passId !in PassIds(prev))
            && (forall d :: d in cloud ==> d.passId in PassIds(r))
  {
    var newDonations := FilterNew(cloud, PassIds(prev));
    FilterNewMembers(cloud, PassIds(prev));
    var r := newDonations + prev;
    assert r[..|newDonations|] == newDonations;
    forall d | d in cloud ensures d.passId in PassIds(r) {
      if d.passId !in PassIds(prev) {
        assert d in newDonations;
      }
    }
  }

  /** When every pass id of `cloud` is already in `ids`, nothing is new. */
  lemma NothingNew(cloud: seq<Donation>, ids: set<string>)
    requires forall d :: d in cloud ==> d.passId in ids
    ensures FilterNew(cloud, ids) == []
  {
  }

  /** Logging in twice with the same cloud contents merges nothing the second time. */
  lemma MergeIdempotent(prev: seq<Donation>, cloud: seq<Donation>)
    ensures MergeCloud(MergeCloud(prev, cloud), cloud) == MergeCloud(prev, cloud)
  {
    var once := MergeCloud(prev, cloud);
    MergeCloudMembers(prev, cloud);
    NothingNew(cloud, PassIds(once));
  }

  /** A list of donations in which no pass id occurs twice. */
  predicate UniquePassIds(ds: seq<Donation>) {
    forall i, j :: 0 <= i < j < |ds| ==> ds[i].passId != ds[j].passId
  }

  /** Filtering keeps pass ids unique. */
  lemma {:induction false} FilterNewUnique(cloud: seq<Donation>, ids: set<string>)
    requires UniquePassIds(cloud)
    ensures UniquePassIds(FilterNew(cloud, ids))
  {
    if cloud != [] {
      var tail := cloud[1..];
      assert UniquePassIds(tail) by {
        forall i, j | 0 <= i < j < |tail| ensures tail[i].passId != tail[j].passId {
          assert tail[i] == cloud[i + 1] && tail[j] == cloud[j + 1];
        }
      }
      FilterNewUnique(tail, ids);
      FilterNewMembers(tail, ids);
      var rest := FilterNew(tail, ids);
      forall d | d in rest ensures d.passId != cloud[0].passId {
        var k :| 0 <= k < |tail| && tail[k] == d;
        assert cloud[k + 1] == d;
      }
      var head: seq<Donation> := if cloud[0].passId in ids then [] else [cloud[0]];
      forall i, j | 0 <= i < j < |head + rest| ensures (head + rest)[i].passId != (head + rest)[j].passId {
        if i < |head| {
          assert (head + rest)[j] == rest[j - |head|];
          assert rest[j - |head|] in rest;
        } else {
          assert (head + rest)[i] == rest[i - |head|] && (head + rest)[j] == rest[j - |head|];
        }
      }
    }
  }

  /** The merge avoids duplicates: when the cloud and the state each hold a pass id at
      most once, so does the merged list. */
  lemma MergeKeepsPassIdsUnique(prev: seq<Donation>, cloud: seq<Donation>)
    requires UniquePassIds(prev) && UniquePassIds(cloud)
    ensures UniquePassIds(MergeCloud(prev, cloud))
  {
    var newDonations := FilterNew(cloud, PassIds(prev));
    FilterNewUnique(cloud, PassIds(prev));
    FilterNewMembers(cloud, PassIds(prev));
    var r := newDonations + prev;
    forall i, j | 0 <= i < j < |r| ensures r[i].passId != r[j].passId {
      if j < |newDonations| {
        assert r[i] == newDonations[i] && r[j] == newDonations[j];
      } else if i < |newDonations| {
        assert r[i] == newDonations[i] && newDonations[i] in newDonations;
        assert r[j] == prev[j - |newDonations|] && prev[j - |newDonations|] in prev;
      } else {
        assert r[i] == prev[i - |newDonations|] && r[j] == prev[j - |newDonations|];
      }
    }
  }

  // ================================================================ login

  /** What `fetch` of the admin endpoint gives: no response (or a body that is not JSON),
      or the endpoint's answer. */
  datatype LoginReply = NoResponse | Answer(response: AuthResponse)

  /** A JavaScript text that is truthy: present and non-empty. */
  predicate Truthy(o: Option<string>) {
    o.Some? && o.value != []
  }

  /** The alert for a refused login whose JSON body is `b`. */
  function RefusalMessage(b: AuthBody): (m: string)
    ensures m != []
    ensures b.error == Some(TooManyError) ==>
              m == TooManyPrefix + (if Truthy(b.message) then b.message.value else WaitMessage)
    ensures b.error != Some(TooManyError) && Truthy(b.message) ==> m == b.message.value
    ensures b.error != Some(TooManyError) && !Truthy(b.message) && Truthy(b.error) ==> m == b.error.value
    ensures !Truthy(b.message) && !Truthy(b.error) ==> m == InvalidCredentialsMessage
  {
    var serverMsg := if Truthy(b.message) then b.message else b.error;
    if b.error == Some(TooManyError) then
      TooManyPrefix + (if Truthy(b.message) then b.message.value else WaitMessage)
    else if Truthy(serverMsg) then serverMsg.value
    else InvalidCredentialsMessage
  }

  /** The alert shown when a login does not succeed. */
  function LoginAlert(reply: LoginReply): (m: string)
    ensures m != []
  {
    match reply
    case NoResponse => NetworkFailureMessage
    case Answer(r) =>
      match Body(r)
      case None => NetworkFailureMessage
      case Some(b) => RefusalMessage(b)
  }

  /** The session token of a login reply that answers 200 with `success` set, if it does.
      Only an authenticated response does, and it carries its token. */
  method AcceptedToken(reply: LoginReply) returns (token: Option<string>)
    ensures token.Some? <==> reply.Answer? && reply.response.Authenticated?
    ensures token.Some? ==> token.value == reply.response.sessionToken
  {
    token := None;
    if reply.Answer? && Status(reply.response) == 200 {
      var data := Body(reply.response);
      if data.Some? && data.value.success {
        token := data.value.sessionToken;
      }
    }
  }

  /** The donation list after a successful login: the cloud's donations are fetched and,
      when the query yields any, merged in. */
  method DonationsAfterLogin(prev: seq<Donation>, store: seq<Doc>, reachable: bool)
    returns (donations: seq<Donation>)
    ensures donations == MergeCloud(prev, FetchAllDonations(store, reachable))
  {
    var cloudDonations := FetchAllDonations(store, reachable);
    donations := prev;
    if |cloudDonations| > 0 {
      donations := MergeCloud(prev, cloudDonations);
    } else {
      assert MergeCloud(prev, cloudDonations) == prev;
    }
  }

  /** The administrator sees the endpoint's own words for each refusal; a locked-out client
      is told the minutes to wait. */
  lemma RefusalAlerts(n: int, remaining: int, details: string)
    ensures LoginAlert(Answer(TooManyAttempts(n)))
            == TooManyPrefix + "Please try again in " + IntToString(n) + " minutes"
    ensures LoginAlert(Answer(InvalidPassword(remaining))) == "Invalid password"
    ensures LoginAlert(Answer(PasswordRequired)) == "Password is required"
    ensures LoginAlert(Answer(PasswordEmpty)) == "Password cannot be empty"
    ensures LoginAlert(Answer(NotConfigured)) == "Authentication not configured"
    ensures LoginAlert(Answer(AuthFailed(details))) == "Authentication failed"
    ensures LoginAlert(Answer(MethodNotAllowed)) == "Method not allowed"
    ensures LoginAlert(NoResponse) == NetworkFailureMessage
  {
    var m := "Please try again in " + IntToString(n) + " minutes";
    assert Truthy(Some(m));
    assert TooManyPrefix + m == TooManyPrefix + "Please try again in " + IntToString(n) + " minutes";
  }

  // ================================================================ notifications

  /** A local notification the shell asks the service worker to show. */
  datatype Notification = Notification(title: string, body: string)

  function StatusName(s: EventStatus): string {
    match s
    case Upcoming => "Upcoming"
    case Ongoing => "Ongoing"
    case Completed => "Completed"
  }

  /** The notification text tells the statuses apart. */
  lemma StatusNamesDistinct(a: EventStatus, b: EventStatus)
    requires a != b
    ensures StatusName(a) != StatusName(b)
  {
  }

  // ================================================================ updates

  /** `updates.filter(u => u.id !== id)`. */
  function RemoveUpdate(updates: seq<EventUpdate>, id: string): (r: seq<EventUpdate>)
    ensures |r| <= |updates|
    ensures forall u :: u in r <==> u in updates && u.id != id
  {
    if updates == [] then []
    else (if updates[0].id == id then [] else [updates[0]]) + RemoveUpdate(updates[1..], id)
  }

  /** Removing from a single update drops it exactly when it carries that id. */
  lemma RemoveUpdateSingle(u: EventUpdate, id: string)
    ensures RemoveUpdate([u], id) == if u.id == id then [] else [u]
  {
    assert [u][1..] == [];
  }

  /** Removal distributes over concatenation, so the kept updates keep their order. */
  lemma {:induction false} RemoveUpdateAppend(a: seq<EventUpdate>, b: seq<EventUpdate>, id: string)
    ensures RemoveUpdate(a + b, id) == RemoveUpdate(a, id) + RemoveUpdate(b, id)
  {
    if a == [] {
      assert a + b == b;
    } else {
      assert (a + b)[0] == a[0] && (a + b)[1..] == a[1..] + b;
      RemoveUpdateAppend(a[1..], b, id);
    }
  }

  /** Removing an id no update carries changes nothing. */
  lemma {:induction false} RemoveAbsent(updates: seq<EventUpdate>, id: string)
    requires forall u :: u in updates ==> u.id != id
    ensures RemoveUpdate(updates, id) == updates
  {
    if updates != [] {
      assert updates[0] in updates;
      assert forall u :: u in updates[1..] ==> u in updates;
      RemoveAbsent(updates[1..], id);
    }
  }

  /** Posting an update with a new id and then removing it restores the list. */
  lemma AddThenRemove(updates: seq<EventUpdate>, u: EventUpdate)
    requires forall v :: v in updates ==> v.id != u.id
    ensures RemoveUpdate([u] + updates, u.id) == updates
  {
    assert ([u] + updates)[1..] == updates;
    RemoveAbsent(updates, u.id);
  }

  // ================================================================ the shell

  /** The shell's state: the shared application state, the admin flag, and the two local
      storage entries it writes. */
  class AppShell {
    var state: AppState
    var isAdmin: bool
    var session: Option<string>
    var stored: AppState

    /** The saved state always mirrors the current one, donations excluded. */
    predicate Valid()
      reads this
    {
      stored == PersistedState(state)
    }

    /** Start-up from what local storage holds. */
    constructor (saved: Option<AppState>, savedSession: Option<string>, initial: AppState)
      ensures Valid()
      ensures state == LoadState(saved, initial) && isAdmin == AdminAtLoad(savedSession)
      ensures session == savedSession
    {
      state := LoadState(saved, initial);
      isAdmin := AdminAtLoad(savedSession);
      session := savedSession;
      stored := PersistedState(LoadState(saved, initial));
    }

    /** `handleLogin`: posts the trimmed password. On success the admin flag is set, the
        session token stored, and the cloud's donations (when the query yields any) merged
        into the state; otherwise an alert explains the refusal and nothing changes.
        `server` stands for the endpoint; `store`/`reachable` for the donation query. */
    method HandleLogin(password: string, server: string -> LoginReply, store: seq<Doc>, reachable: bool)
      returns (ok: bool, alert: Option<string>)
      requires Valid()
      modifies this`state, this`stored, this`isAdmin, this`session
      ensures Valid()
      ensures var reply := server(Trim(password));
              && (ok <==> reply.Answer? && reply.response.Authenticated?)
              && (ok ==> && alert == None && isAdmin
                         && session == Some(reply.response.sessionToken)
                         && state == old(state).(donations :=
                              MergeCloud(old(state).donations, FetchAllDonations(store, reachable))))
              && (!ok ==> && alert == Some(LoginAlert(reply))
                          && isAdmin == old(isAdmin) && session == old(session) && state == old(state))
    {
      var reply := server(Trim(password));
      var token := AcceptedToken(reply);
      if token.None? {
        return false, Some(LoginAlert(reply));
      }
      var donations := DonationsAfterLogin(state.donations, store, reachable);
      isAdmin, session := true, token;
      state := state.(donations := donations);
      stored := PersistedState(state);
      return true, None;
    }

    /** `handleLogout`. */
    method Logout()
      modifies this
      ensures !isAdmin && session == None
      ensures state == old(state) && stored == old(stored)
    {
      isAdmin := false;
      session := None;
    }

    /** `handleAddUpdate`: the update goes first; a notification carries its title. */
    method AddUpdate(u: EventUpdate) returns (n: Notification)
      requires Valid()
      modifies this
      ensures Valid()
      ensures state == old(state).(updates := [u] + old(state).updates)
      ensures isAdmin == old(isAdmin) && session == old(session)
      ensures n == Notification("New Ritual Update", u.title)
    {
      state := state.(updates := [u] + state.updates);
      stored := PersistedState(state);
      n := Notification("New Ritual Update", u.title);
    }

    /** `handleRemoveUpdate`: every update with that id goes; the others keep their order. */
    method RemoveUpdateById(id: string)
      requires Valid()
      modifies this
      ensures Valid()
      ensures state == old(state).(updates := RemoveUpdate(old(state).updates, id))
      ensures isAdmin == old(isAdmin) && session == old(session)
    {
      state := state.(updates := RemoveUpdate(state.updates, id));
      stored := PersistedState(state);
    }

    /** `handleUpdateStatus`: sets the status, and notifies only when it changed. */
    method UpdateStatus(status: EventStatus) returns (n: Option<Notification>)
      requires Valid()
      modifies this
      ensures Valid()
      ensures state == old(state).(eventInfo := old(state).eventInfo.(status := status))
      ensures isAdmin == old(isAdmin) && session == old(session)
      ensures n.Some? <==> old(state).eventInfo.status != status
      ensures n.Some? ==> n.value == Notification("Event Status Changed", "The event is now " + StatusName(status))
    {
      var oldStatus := state.eventInfo.status;
      state := state.(eventInfo := state.eventInfo.(status := status));
      stored := PersistedState(state);
      n := None;
      if oldStatus != status {
        n := Some(Notification("Event Status Changed", "The event is now " + StatusName(status)));
      }
    }
  }
}
