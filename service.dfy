/**
 * The request handlers of the hub (app/main.py) over an explicitly passed
 * store: read with default-on-first-read, write-and-echo, and notification
 * intake with channel resolution. Each handler is a pure transition on
 * `Snapshot` and a method on `InMemoryStore` proved to perform it.
 */
module Service {

  import opened Options
  import opened Models
  import opened Storage

  /** The intake reply; there is no rejection path, so `accepted` is always true. */
  datatype SendResponse = SendResponse(userId: string, channels: seq<DeliveryChannel>, accepted: bool := true)

  /** The preference created when a user is read before any write. */
  const FirstReadDefault: Preference := Preference(channels := [Email], digest := false)

  /** Python truthiness of an optional channel list: `None` and `[]` are both falsy. */
  predicate Truthy(o: Option<seq<DeliveryChannel>>)
  {
    o.Some? && o.value != []
  }

  /** Python's `a or b` on an optional channel list. */
  function OrElse(a: Option<seq<DeliveryChannel>>, b: seq<DeliveryChannel>): (r: seq<DeliveryChannel>)
  {
    if Truthy(a) then a.value else b
  }

  /**
   * Channel resolution: a non-empty override wins outright; otherwise the
   * stored channels are used verbatim, even when empty (a stored record is
   * always truthy); with nothing stored the result is `[email]`.
   */
  function Resolve(override: Option<seq<DeliveryChannel>>, stored: Option<Preference>): (r: seq<DeliveryChannel>)
    ensures Truthy(override) ==> r == override.value
    ensures !Truthy(override) && stored.Some? ==> r == stored.value.channels
    ensures !Truthy(override) && stored.None? ==> r == [Email]
  {
    OrElse(override, match stored case Some(p) => p.channels case None => [Email])
  }

  /** A non-empty override resolves the same whatever is stored. */
  lemma OverrideIgnoresStored(override: seq<DeliveryChannel>, s1: Option<Preference>, s2: Option<Preference>)
    requires override != []
    ensures Resolve(Some(override), s1) == Resolve(Some(override), s2) == override
  {
  }

  /** An absent override and an empty one both fall through to the same fallback. */
  lemma EmptyOverrideFallsThrough(stored: Option<Preference>)
    ensures Resolve(None, stored) == Resolve(Some([]), stored)
  {
  }

  /**
   * Read a user's preference. Afterwards the store holds exactly the value
   * returned for that user; if the user had no entry, that value is the
   * first-read default and it is the only change made.
   */
  function ReadPreference(s: Snapshot, userId: string): (out: (Snapshot, Preference))
    ensures Lookup(out.0, userId) == Some(out.1)
    ensures userId in s.prefs ==> out.0 == s && out.1 == s.prefs[userId]
    ensures userId !in s.prefs ==> out.1 == FirstReadDefault
    ensures forall other :: other != userId ==> Lookup(out.0, other) == Lookup(s, other)
    ensures out.0.prefs.Keys == s.prefs.Keys + {userId}
    ensures out.0.log == s.log
  {
    match Lookup(s, userId)
    case Some(p) => (s, p)
    case None => (Put(s, userId, FirstReadDefault), FirstReadDefault)
  }

  /** Reading twice with nothing in between: the second read returns the same value and changes nothing. */
  lemma RepeatedReadsAgree(s: Snapshot, userId: string)
    ensures var (s1, p1) := ReadPreference(s, userId); ReadPreference(s1, userId) == (s1, p1)
  {
  }

  /**
   * Write a user's preference and echo it. A read that follows returns the
   * written value and changes nothing; other users and the log are untouched.
   */
  function WritePreference(s: Snapshot, userId: string, p: Preference): (out: (Snapshot, Preference))
    ensures out.1 == p
    ensures ReadPreference(out.0, userId) == (out.0, p)
    ensures forall other :: other != userId ==> Lookup(out.0, other) == Lookup(s, other)
    ensures out.0.log == s.log
  {
    (Put(s, userId, p), p)
  }

  /**
   * Accept a notification: resolve its channels against what is stored for
   * its user, without creating a preference entry, and append the original
   * notification to the log.
   */
  function Submit(s: Snapshot, n: Notification): (out: (Snapshot, SendResponse))
    ensures out.0.prefs == s.prefs
    ensures out.0.log == s.log + [n]
    ensures out.1.accepted && out.1.userId == n.userId
    ensures Truthy(n.channels) ==> out.1.channels == n.channels.value
    ensures !Truthy(n.channels) && n.userId in s.prefs ==> out.1.channels == s.prefs[n.userId].channels
    ensures !Truthy(n.channels) && n.userId !in s.prefs ==> out.1.channels == [Email]
  {
    var channels := Resolve(n.channels, Lookup(s, n.userId));
    (Append(s, n), SendResponse(n.userId, channels, accepted := true))
  }

  /** The GET handler: look up, and on a miss store and return the default. */
  method GetPrefs(store: InMemoryStore, userId: string) returns (p: Preference)
    modifies store
    ensures (store.Snap(), p) == ReadPreference(old(store.Snap()), userId)
  {
    var found := store.GetPrefs(userId);
    if found.Some? {
      p := found.value;
    } else {
      p := FirstReadDefault;
      var _ := store.SetPrefs(userId, p);
    }
  }

  /** The PUT handler: replace the stored preference and echo it. */
  method SetPrefs(store: InMemoryStore, userId: string, prefs: Preference) returns (r: Preference)
    modifies store
    ensures (store.Snap(), r) == WritePreference(old(store.Snap()), userId, prefs)
  {
    var _ := store.SetPrefs(userId, prefs);
    r := prefs;
  }

  /** The POST handler: resolve channels, log the notification, accept. */
  method SendNotification(store: InMemoryStore, n: Notification) returns (resp: SendResponse)
    modifies store
    ensures (store.Snap(), resp) == Submit(old(store.Snap()), n)
  {
    var stored := store.GetPrefs(n.userId);
    var channels := Resolve(n.channels, stored);
    store.AddNotification(n);
    resp := SendResponse(n.userId, channels, accepted := true);
  }

  /**
   * The preferences round trip of the test suite: write channels [email, push],
   * digest on and quiet hours 22:00 to 07:00 for "u1", then read them back.
   */
  lemma PreferencesRoundTripScenario(s: Snapshot)
    ensures var p := Preference([Email, Push], true, Some(QuietHours(79200, 25200)));
            var r := ReadPreference(WritePreference(s, "u1", p).0, "u1").1;
            r.channels == [Email, Push] && r.digest && r.quietHours == Some(QuietHours(79200, 25200))
  {
  }

  /** A notification without override for a never-seen user goes to [email] and stores no preference. */
  lemma FirstTouchScenario()
    ensures var (s, resp) := Submit(Empty, Notification("u2", "x", "y"));
            resp == SendResponse("u2", [Email], true) && s.prefs == map[] && s.log == [Notification("u2", "x", "y")]
  {
  }

}
