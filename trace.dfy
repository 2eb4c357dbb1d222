/**
 * Runs of handler calls against one store, one after another. The lemmas
 * here state what a sequence of requests leaves behind: the log is the
 * submitted notifications in call order, an entry exists only for users that
 * were read or written, an entry nobody writes never changes, and the last
 * write wins.
 */
module Trace {

  import opened Options
  import opened Models
  import opened Storage
  import opened Service

  /** One call into the hub. */
  datatype Request =
    | GetPreferences(userId: string)
    | PutPreferences(userId: string, prefs: Preference)
    | PostNotification(notif: Notification)
    | ListNotifications

  /** The store after one request. */
  function Apply(s: Snapshot, req: Request): (r: Snapshot)
  {
    match req
    case GetPreferences(u) => ReadPreference(s, u).0
    case PutPreferences(u, p) => WritePreference(s, u, p).0
    case PostNotification(n) => Submit(s, n).0
    case ListNotifications => s
  }

  /** The store after the requests, in order. */
  function Run(s: Snapshot, reqs: seq<Request>): (r: Snapshot)
    decreases |reqs|
  {
    if reqs == [] then s else Run(Apply(s, reqs[0]), reqs[1..])
  }

  /** The notifications posted by the requests, in order. */
  function Submitted(reqs: seq<Request>): (posted: seq<Notification>)
    decreases |reqs|
  {
    if reqs == [] then []
    else (if reqs[0].PostNotification? then [reqs[0].notif] else []) + Submitted(reqs[1..])
  }

  /** The users the requests read or write preferences for. */
  function Touched(reqs: seq<Request>): (users: set<string>)
    decreases |reqs|
  {
    if reqs == [] then {}
    else (if reqs[0].GetPreferences? || reqs[0].PutPreferences? then {reqs[0].userId} else {})
         + Touched(reqs[1..])
  }

  /** Whether some request writes the preference of `userId`. */
  predicate WritesTo(reqs: seq<Request>, userId: string)
    decreases |reqs|
  {
    reqs != [] && ((reqs[0].PutPreferences? && reqs[0].userId == userId) || WritesTo(reqs[1..], userId))
  }

  /** Running two batches one after the other is running their concatenation. */
  lemma {:induction false} RunConcat(s: Snapshot, a: seq<Request>, b: seq<Request>)
    ensures Run(s, a + b) == Run(Run(s, a), b)
    decreases |a|
  {
    if a != [] {
      assert (a + b)[0] == a[0] && (a + b)[1..] == a[1..] + b;
      assert Run(s, a + b) == Run(Apply(s, a[0]), a[1..] + b);
      RunConcat(Apply(s, a[0]), a[1..], b);
    } else {
      assert a + b == b;
    }
  }

  /** The log grows by exactly the posted notifications, in call order. */
  lemma {:induction false} LogIsSubmissions(s: Snapshot, reqs: seq<Request>)
    ensures Run(s, reqs).log == s.log + Submitted(reqs)
    decreases |reqs|
  {
    if reqs != [] {
      LogIsSubmissions(Apply(s, reqs[0]), reqs[1..]);
    }
  }

  /** Of two batches run in turn, every notification of the first precedes every one of the second. */
  lemma {:induction false} LogOrder(s: Snapshot, a: seq<Request>, b: seq<Request>)
    ensures Run(s, a + b).log == s.log + Submitted(a) + Submitted(b)
  {
    RunConcat(s, a, b);
    LogIsSubmissions(s, a);
    LogIsSubmissions(Run(s, a), b);
  }

  /** A user has an entry after a run exactly when it had one before or some request read or wrote it. */
  lemma {:induction false} KeysAreTouched(s: Snapshot, reqs: seq<Request>)
    ensures Run(s, reqs).prefs.Keys == s.prefs.Keys + Touched(reqs)
    decreases |reqs|
  {
    if reqs != [] {
      KeysAreTouched(Apply(s, reqs[0]), reqs[1..]);
    }
  }

  /** An entry that no request writes keeps its value through the run. */
  lemma {:induction false} UnwrittenEntryStable(s: Snapshot, reqs: seq<Request>, userId: string)
    requires userId in s.prefs
    requires !WritesTo(reqs, userId)
    ensures userId in Run(s, reqs).prefs && Run(s, reqs).prefs[userId] == s.prefs[userId]
    decreases |reqs|
  {
    if reqs != [] {
      var s1 := Apply(s, reqs[0]);
      assert Lookup(s1, userId) == Lookup(s, userId);
      UnwrittenEntryStable(s1, reqs[1..], userId);
    }
  }

  /**
   * Default creation is stable: after a first read of a never-seen user, a
   * read after any run that does not write that user returns the default.
   */
  lemma DefaultStable(s: Snapshot, userId: string, reqs: seq<Request>)
    requires userId !in s.prefs
    requires !WritesTo(reqs, userId)
    ensures ReadPreference(Run(ReadPreference(s, userId).0, reqs), userId).1 == FirstReadDefault
  {
    UnwrittenEntryStable(ReadPreference(s, userId).0, reqs, userId);
  }

  /** The last write to a user decides what every later read returns. */
  lemma LastWriteWins(s: Snapshot, before: seq<Request>, userId: string, p: Preference, after: seq<Request>)
    requires !WritesTo(after, userId)
    ensures ReadPreference(Run(s, before + [PutPreferences(userId, p)] + after), userId).1 == p
  {
    var w := [PutPreferences(userId, p)];
    RunConcat(s, before + w, after);
    RunConcat(s, before, w);
    var sw := Run(s, before + w);
    assert sw == WritePreference(Run(s, before), userId, p).0;
    UnwrittenEntryStable(sw, after, userId);
  }

}
