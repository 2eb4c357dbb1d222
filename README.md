# Notification hub: preference store and channel resolution

This project models the core of a small notification hub service in Dafny.

The hub keeps, per user, a delivery preference: an ordered list of channels (email, sms, push, webhook), a digest flag and optional quiet hours. It also keeps an append-only log of the notifications submitted to it.

Three handlers work on that store:

- **Read preferences.** A user with no entry gets `Preference(channels=[email], digest=False)`. That default is stored on the first read.
- **Write preferences.** The stored value is replaced, and the written value is echoed back.
- **Submit notification.** The delivery channels are resolved, the original notification is appended to the log, and the request is accepted.

Channel resolution follows Python truthiness:
- A non-empty override wins.
- `None` and `[]` both fall through to the stored channels, which are used as they are, even when empty.
- With nothing stored, the result is `[email]`.

Layout:

- `options.dfy`: `Option`, which keeps an absent override apart from an empty one.
- `models.dfy`: the channel enum with its string values, `QuietHours`, `Preference` and `Notification`. Constructor defaults model the record defaults.
- `storage.dfy`: `Snapshot` is the store's abstract value, with `Lookup`, `Put` and `Append`. `InMemoryStore` is a class with a `map` of preferences and a `seq` log. Each of its methods is proved to perform the matching `Snapshot` operation.
- `service.dfy`: the three handlers. Each is a pure transition on `Snapshot` (`ReadPreference`, `WritePreference`, `Submit`) and a method over an explicitly passed `InMemoryStore` proved to perform it. This file also holds `Resolve`, the channel rule, and two scenario lemmas.
- `trace.dfy`: runs of handler calls in sequence, with lemmas by induction about what a run leaves behind.

Intake looks the user up with the store's plain lookup (app/main.py:54), not with the defaulting read. So submitting a notification never creates a preference entry, and an unknown user's notification resolves to `[email]` without touching the table (`Service.Submit`, `Service.FirstTouchScenario`).

## Model

| member | source | states |
|---|---|---|
| `Models.ParseChannel` | app/models.py:8-12 | a name is accepted only as the value of one of the four channels; any other name is rejected |
| `Models.ParseChannelIff` | app/models.py:8-12 | parsing a name yields channel c exactly when c's value is that name (both directions), so the four values are distinct |
| `Models.PreferenceDefaults` | app/models.py:20-30 | preference defaults are no channels, no digest, no quiet hours; for every user, title and body, a notification's override defaults to absent, which differs from an empty override |
| `Storage.Put` | app/storage.py:17-20 | after a write the user maps to the written value, every other user's lookup is unchanged, the key set gains just that user, the log is unchanged |
| `Storage.Append` | app/storage.py:22-24 | the log grows by exactly one, earlier entries are kept, the new last entry is the notification, preferences are unchanged |
| `Storage.PutPut` | app/storage.py:17-20 | two writes to one user equal the second write alone: last write wins, and writing the same value twice is idempotent |
| `Storage.InMemoryStore.constructor` | app/storage.py:8-11 | a new store has an empty preference table and an empty log |
| `Storage.InMemoryStore.GetPrefs` | app/storage.py:13-15 | returns `Lookup` of the current state: the stored preference when the user has one and `None` otherwise; changes nothing |
| `Storage.InMemoryStore.SetPrefs` | app/storage.py:17-20 | the new state is `Put` of the old one and the written value is returned |
| `Storage.InMemoryStore.AddNotification` | app/storage.py:22-24 | the new state is `Append` of the old one |
| `Storage.InMemoryStore.ListNotifications` | app/storage.py:26-28 | returns the whole log in insertion order; changes nothing |
| `Service.Resolve` | app/main.py:55 | a non-empty override is the result; otherwise the stored channels verbatim, possibly empty; with nothing stored the result is `[email]` |
| `Service.OverrideIgnoresStored` | app/main.py:55 | a non-empty override resolves to itself whatever preference is stored or absent |
| `Service.EmptyOverrideFallsThrough` | app/main.py:55 | an absent override and an empty override resolve identically |
| `Service.ReadPreference` | app/main.py:37-43 | after a read the store holds exactly the returned value for the user; an existing entry is returned and nothing changes; a missing one becomes the `[email]` default; other users and the log are untouched |
| `Service.RepeatedReadsAgree` | app/main.py:39-43 | a second read with nothing in between returns the same value and leaves the store as the first left it |
| `Service.WritePreference` | app/main.py:46-49 | the written value is echoed; a following read returns it and changes nothing; other users and the log are untouched |
| `Service.Submit` | app/main.py:52-57 | the response is accepted for the notification's user; its channels are the override when non-empty, else the stored channels, else `[email]`; no preference entry is created; the log gains exactly the original notification |
| `Service.GetPrefs` | app/main.py:37-43 | the GET handler performs `ReadPreference` on the store and returns its value |
| `Service.SetPrefs` | app/main.py:46-49 | the PUT handler performs `WritePreference` on the store and returns its echo |
| `Service.SendNotification` | app/main.py:52-57 | the POST handler performs `Submit` on the store and returns its response |
| `Service.PreferencesRoundTripScenario` | tests/test_health.py:15-30 | writing channels [email, push], digest on and quiet hours 22:00 to 07:00 for "u1", then reading, gives those channels, digest on and those quiet hours back (start after end kept) |
| `Service.FirstTouchScenario` | app/main.py:53-57 | a notification with no override for a never-seen user resolves to `[email]`, is accepted, stores no preference and is logged |
| `Trace.LogIsSubmissions` | app/main.py:56 | after any run the log is the old log followed by exactly the posted notifications, in call order |
| `Trace.LogOrder` | app/storage.py:22-24 | of two batches run in turn, every notification of the first precedes every notification of the second in the log |
| `Trace.KeysAreTouched` | app/main.py:37-57 | after a run a user has an entry exactly when it had one before or was read or written; posting notifications never creates one, and nothing deletes one |
| `Trace.UnwrittenEntryStable` | app/main.py:39-43 | an existing entry that no request of a run writes keeps its value |
| `Trace.DefaultStable` | app/main.py:39-43 | after the first read of a never-seen user, a read after any run without writes to that user returns the `[email]` default |
| `Trace.LastWriteWins` | app/storage.py:17-20 | a read after a write to a user, followed by requests that do not write that user, returns the written value |

## Left out

- The lock (`RLock` and `with self._lock`): the model is single-threaded, and each operation is one atomic step.
- The read-then-write race in the GET handler, where the lookup and the default write take the lock separately: this is a concurrency question, and the sequential model cannot show it.
- Aliasing of stored records: Python stores the caller's `Preference` object, but here preferences are immutable values.
- FastAPI app construction, the title and version taken from environment variables, the routing decorators, and the fixed `/health` and `/` payloads: these are framework plumbing with no logic.
- Pydantic validation and JSON serialisation: channels arrive already validated. `Models.ParseChannel` models only the enum's value lookup.
- `datetime.time`: quiet-hour bounds are natural numbers (seconds after midnight), stored and returned but never interpreted.
- Any use of `digest` or `quiet_hours`: the source never consults them, so they are only stored and returned.
- The module-level `STORE` singleton: the handlers take the store as a parameter.
- The HTTP mechanics of the test client: the preferences test becomes `Service.PreferencesRoundTripScenario`.
