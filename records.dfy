/**
 * The record-level rules the store applies to its tables: how a user record
 * absorbs profile and status updates, how a discovered chat is filed under its
 * id, and which unread counters the store accepts.
 */
module Records {
  import opened Variant

  type Record = map<string, Value>

  /** The "id" field of a user or chat payload, as text. */
  function IdOf(info: Record): string {
    ToString(Lookup(info, "id"))
  }

  // ---------------------------------------------------------------------
  // Users

  /** A user record with its "status" field set: every other field is kept. */
  function WithStatus(user: Record, status: Record): (r: Record)
    ensures "status" in r && r["status"] == Rec(status)
    ensures forall key :: key != "status" ==> (key in r <==> key in user)
    ensures forall key :: key in user && key != "status" ==> r[key] == user[key]
  {
    user["status" := Rec(status)]
  }

  /** The two kinds of update the backend sends about one user. */
  datatype UserEvent =
    | ProfileUpdate(info: Record)     // updateUser: the complete user record
    | StatusUpdate(status: Record)    // updateUserStatus: the new status only

  /** The stored record of a user after one update: a profile update replaces
      the record, a status update merges into it. */
  function ApplyUserEvent(user: Record, event: UserEvent): Record {
    match event
    case ProfileUpdate(info) => info
    case StatusUpdate(status) => WithStatus(user, status)
  }

  function ApplyUserEvents(user: Record, events: seq<UserEvent>): Record
    decreases |events|
  {
    if events == [] then user else ApplyUserEvents(ApplyUserEvent(user, events[0]), events[1..])
  }

  /** Status updates never erase a profile field: after any run of them the
      record holds the same non-status fields, and the status of the last one. */
  lemma {:induction false} StatusUpdatesKeepProfile(user: Record, events: seq<UserEvent>)
    requires forall j :: 0 <= j < |events| ==> events[j].StatusUpdate?
    ensures forall key :: key != "status" ==> (key in ApplyUserEvents(user, events) <==> key in user)
    ensures forall key :: key in user && key != "status" ==> ApplyUserEvents(user, events)[key] == user[key]
    ensures events != [] ==>
              "status" in ApplyUserEvents(user, events) &&
              ApplyUserEvents(user, events)["status"] == Rec(events[|events| - 1].status)
    decreases |events|
  {
    if events != [] {
      StatusUpdatesKeepProfile(WithStatus(user, events[0].status), events[1..]);
      if |events| > 1 {
        assert events[1..][|events[1..]| - 1] == events[|events| - 1];
      }
    }
  }

  /** In any run of updates, the non-status fields of the final record are
      those of the last profile update; later status updates do not touch them. */
  lemma {:induction false} LastProfileWins(user: Record, events: seq<UserEvent>, k: nat)
    requires k < |events| && events[k].ProfileUpdate?
    requires forall j :: k < j < |events| ==> events[j].StatusUpdate?
    ensures forall key :: key != "status" ==> (key in ApplyUserEvents(user, events) <==> key in events[k].info)
    ensures forall key :: key in events[k].info && key != "status" ==> ApplyUserEvents(user, events)[key] == events[k].info[key]
    decreases k
  {
    if k == 0 {
      StatusUpdatesKeepProfile(events[0].info, events[1..]);
    } else {
      LastProfileWins(ApplyUserEvent(user, events[0]), events[1..], k - 1);
    }
  }

  // ---------------------------------------------------------------------
  // Chats

  /** Every stored chat is a record filed under its own id. */
  predicate ChatsKeyed(chats: map<string, Value>) {
    forall id :: id in chats ==> chats[id].Rec? && IdOf(chats[id].fields) == id
  }

  /** A discovered chat is stored, whole, under the id it carries; no other
      chat changes. */
  function DiscoverChat(chats: map<string, Value>, info: Record): (r: map<string, Value>)
    ensures ChatsKeyed(chats) ==> ChatsKeyed(r)
    ensures IdOf(info) in r && r[IdOf(info)] == Rec(info)
    ensures forall id :: id != IdOf(info) ==> (id in r <==> id in chats)
    ensures forall id :: id in chats && id != IdOf(info) ==> r[id] == chats[id]
  {
    chats[IdOf(info) := Rec(info)]
  }

  /** Replaying a discovery changes nothing. */
  lemma DiscoverChatIdempotent(chats: map<string, Value>, info: Record)
    ensures DiscoverChat(DiscoverChat(chats, info), info) == DiscoverChat(chats, info)
  {
  }

  // ---------------------------------------------------------------------
  // Unread counters

  /** The counter update concerns the main chat list. */
  predicate IsMainChatList(info: Record) {
    ToString(Lookup(info, "chat_list_type")) == "chatListMain"
  }

  /** A stored counter is either still unset or one for the main chat list. */
  predicate MainScoped(info: Record) {
    info == map[] || IsMainChatList(info)
  }
}
