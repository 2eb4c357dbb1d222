/**
 * The entities of the notification hub (app/models.py): delivery channels,
 * quiet hours, per-user preferences and notification requests. These are
 * values; validation of raw input against them happens at the HTTP boundary,
 * which is not part of this model.
 */
module Models {

  import opened Options

  /** The closed set of delivery channels. */
  datatype DeliveryChannel = Email | Sms | Push | Webhook

  /** The string value a channel carries in the str-valued enum. */
  function ChannelName(c: DeliveryChannel): (name: string)
  {
    match c
    case Email => "email"
    case Sms => "sms"
    case Push => "push"
    case Webhook => "webhook"
  }

  /** Enum lookup by value: a name outside the four values is rejected with `None`. */
  function ParseChannel(name: string): (r: Option<DeliveryChannel>)
    ensures r.Some? ==> ChannelName(r.value) == name
    ensures r.None? ==> forall c: DeliveryChannel :: ChannelName(c) != name
  {
    if name == "email" then Some(Email)
    else if name == "sms" then Some(Sms)
    else if name == "push" then Some(Push)
    else if name == "webhook" then Some(Webhook)
    else None
  }

  /** Parsing a name gives a channel exactly when that channel's value is the name. */
  lemma ParseChannelIff(name: string, c: DeliveryChannel)
    ensures ParseChannel(name) == Some(c) <==> ChannelName(c) == name
  {
  }

  /** Time of day, as seconds after midnight; the model never interprets it. */
  type TimeOfDay = nat

  /** A daily window; `start` after `end` is allowed and kept as given. */
  datatype QuietHours = QuietHours(start: TimeOfDay, end: TimeOfDay)

  /**
   * A user's delivery preference. `channels` is ordered and keeps duplicates;
   * `digest` and `quietHours` are stored and returned, never consulted.
   */
  datatype Preference = Preference(
    channels: seq<DeliveryChannel> := [],
    digest: bool := false,
    quietHours: Option<QuietHours> := None)

  /** A notification request; `channels` is an optional override, absent by default. */
  datatype Notification = Notification(
    userId: string,
    title: string,
    body: string,
    channels: Option<seq<DeliveryChannel>> := None)

  /**
   * The field defaults: a preference with no channels, no digest, no quiet
   * hours; a notification without an override, which differs from one with
   * an empty override.
   */
  lemma PreferenceDefaults(userId: string, title: string, body: string)
    ensures Preference().channels == [] && !Preference().digest && Preference().quietHours.None?
    ensures Notification(userId, title, body).channels.None?
    ensures Notification(userId, title, body) != Notification(userId, title, body, Some([]))
  {
  }

}
