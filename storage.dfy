/**
 * The in-memory preference store (app/storage.py): a table from user id to
 * Preference and an append-only log of notifications. `Snapshot` is its
 * abstract value; `InMemoryStore` is the object the handlers mutate.
 */
module Storage {

  import opened Options
  import opened Models

  /** What a store holds at one moment. */
  datatype Snapshot = Snapshot(prefs: map<string, Preference>, log: seq<Notification>)

  /** A store as constructed: no preferences, no notifications. */
  const Empty: Snapshot := Snapshot(map[], [])

  /** The stored preference for `userId`, or `None` when there is none. */
  function Lookup(s: Snapshot, userId: string): (r: Option<Preference>)
  {
    if userId in s.prefs then Some(s.prefs[userId]) else None
  }

  /** Overwrite (or create) the entry for `userId`. */
  function Put(s: Snapshot, userId: string, p: Preference): (r: Snapshot)
    ensures Lookup(r, userId) == Some(p)
    ensures forall other :: other != userId ==> Lookup(r, other) == Lookup(s, other)
    ensures r.prefs.Keys == s.prefs.Keys + {userId}
    ensures r.log == s.log
  {
    Snapshot(s.prefs[userId := p], s.log)
  }

  /** Add `n` to the end of the log. */
  function Append(s: Snapshot, n: Notification): (r: Snapshot)
    ensures r.prefs == s.prefs
    ensures |r.log| == |s.log| + 1
    ensures r.log[..|s.log|] == s.log && r.log[|s.log|] == n
  {
    Snapshot(s.prefs, s.log + [n])
  }

  /** Two writes to the same user leave what the second alone leaves; with p1 == p2 this is idempotence. */
  lemma PutPut(s: Snapshot, userId: string, p1: Preference, p2: Preference)
    ensures Put(Put(s, userId, p1), userId, p2) == Put(s, userId, p2)
  {
  }

  class InMemoryStore {
    var prefs: map<string, Preference>
    var notifications: seq<Notification>

    /** The abstract value of this store. */
    function Snap(): Snapshot
      reads this
    {
      Snapshot(prefs, notifications)
    }

    constructor ()
      ensures Snap() == Empty
    {
      prefs := map[];
      notifications := [];
    }

    /** Look a user up; reads only. */
    method GetPrefs(userId: string) returns (p: Option<Preference>)
      ensures p == Lookup(Snap(), userId)
    {
      if userId in prefs {
        p := Some(prefs[userId]);
      } else {
        p := None;
      }
    }

    /** Replace the user's preference and return the value written. */
    method SetPrefs(userId: string, p: Preference) returns (written: Preference)
      modifies this
      ensures Snap() == Put(old(Snap()), userId, p)
      ensures written == p
    {
      prefs := prefs[userId := p];
      written := p;
    }

    /** Append a notification to the log. */
    method AddNotification(n: Notification)
      modifies this
      ensures Snap() == Append(old(Snap()), n)
    {
      notifications := notifications + [n];
    }

    /** A copy of the log, in insertion order; reads only. */
    method ListNotifications() returns (log: seq<Notification>)
      ensures log == notifications
    {
      log := notifications;
    }
  }

}
