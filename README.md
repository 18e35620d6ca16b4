# anthill: profile email rate limit and event page decisions

A Dafny model of the two parts of the anthill community site that hold
decisions and state of their own:

- **Member profiles** (`anthill/people/models.py`). A profile rate-limits
  outbound email. It may send a message only when strictly more than the wait
  period (60 minutes by default) has passed since the last one, where "never
  sent" counts as long enough, and only while its lifetime count is below its
  allowance (100 by default). Recording a send stamps the time, adds one to
  the count and saves the profile. The count is never reset. A `post_save`
  hook on user accounts creates exactly one default profile for each newly
  created account.
- **Event pages** (`anthill/events/views.py`). An event is *finished* when its
  end, or its start when it has no end, lies strictly before now. The detail
  page records an RSVP only for an event still on, on a POST from a signed-in
  user with a valid form. Only the creator or staff may edit an event. A new
  event always belongs to the user who posted it. The search page lists at
  most five upcoming events. It adds a title filter only for a non-empty name
  and a distance filter only for a non-empty location.

Files:

- `base.dfy`: `Option`, `Result`, time (integer microseconds) and keys.
- `email_limit.dfy`: the rate limit on values (`EmailLog`, `CanSend`,
  `Recorded`), plus traces of sends (`Run`, `Guarded`) and the lemmas about
  them.
- `people.dfy`: the `Profile` class, with the source's fields and defaults and
  persistence as a snapshot. Also the `ProfileStore` class, which holds user
  accounts and profiles, with the `post_save` hook.
- `events.dfy`: event records and the decisions of each page as functions.
- `event_views.dfy`: the `EventStore` class, which holds the event and
  attendance tables. Its detail, edit and new-event pages apply those
  decisions to the store.

The clock is a parameter `now`. Time is counted in microseconds, the
resolution of a time difference in the source. The wait period is a
parameter `wait` (in minutes) of the value-level functions; the `Profile`
class uses the defaults. Form validation is an input: a `Request` carries
whether the form validated and its cleaned data. For the event form, that
data is the cleaned value of each field that passed validation. The store is
modelled as sequences of records.

Behaviour of the pages worth noting:

- The time gate is strict. A message exactly at the end of the wait period is
  still blocked.
- A missing event gives "not found", and an anonymous visitor to the edit and
  new-event pages is sent to the login page. Both are responses that change
  nothing.
- The views import the generic views `simple`, `date_based` and
  `list_detail`, and `redirect`, so the code runs on Django 1.1 to 1.4. On
  all of these, an invalid form discards its cleaned data after validation.
  The model follows Django 1.2 to 1.4 for model forms: there a model form has
  by then already copied each field that did validate into its instance.
- The search page ignores whether its form validated and reads the cleaned
  data. An invalid search therefore fails, with the same error whichever
  field was bad. `Search` returns `Err(NoCleanedData)` for it.
- An invalid edit POST stores nothing. On Django 1.2 to 1.4 the page shows
  the event with the fields that did validate already copied in, in memory
  only.

## Model

| member | source | states |
|---|---|---|
| `EmailLimit.Elapsed` | anthill/people/models.py:36-39 | A profile that never sent a message counts as having waited longer than the wait period, whatever that period is. Otherwise the elapsed time is now minus the last send. |
| `EmailLimit.CanSend` | anthill/people/models.py:34-41 | Sending is allowed exactly when both hold: never sent or strictly more than the wait period since the last send, and the count below the allowance. At or over the allowance it is refused whatever the time. Within the wait period (elapsed at most the wait) it is refused even under the allowance. |
| `EmailLimit.Recorded` | anthill/people/models.py:44-45 | Recording a send stamps the last-send time with now, adds exactly one to the count and leaves the allowance unchanged. |
| `EmailLimit.SameInstantBlocked` | anthill/people/models.py:37-45 | With a non-negative wait period, a check at the same instant as a recorded send is refused. |
| `EmailLimit.RunCounts` | anthill/people/models.py:43-45 | After any sequence of recorded sends, the count has grown by exactly their number. The allowance is unchanged, and the last-send stamp is the time of the last of them. The count never decreases. |
| `EmailLimit.CapIsPermanent` | anthill/people/models.py:28-45 | Once the count reaches the allowance, no later check passes, after any further sends. The allowance is a lifetime cap. |
| `EmailLimit.GuardedWithinCap` | anthill/people/models.py:34-45 | If every send was made only after a passing check, the count never exceeds the allowance. |
| `EmailLimit.GuardedSpacing` | anthill/people/models.py:34-45 | If every send was made only after a passing check, consecutive sends are strictly more than the wait period apart. |
| `People.Profile.constructor` | anthill/people/models.py:16-29 | A new profile has every field at its default: no last send, count 0, allowance 100, role "other", org emails off, signed up now. It is not yet saved. |
| `People.Profile.CanSendEmail` | anthill/people/models.py:34-41 | A profile's check, in terms of its fields and the default 60-minute wait: never sent or more than 60 minutes ago, and count below allowance. |
| `People.Profile.Save` | anthill/models.py:49-52 | Saving persists exactly the in-memory fields. |
| `People.Profile.RecordEmailSent` | anthill/people/models.py:43-46 | Stamps the last send with now and adds exactly one to the count. The allowance and every other field are unchanged. Saves the result. A check at the same instant is then refused. |
| `People.ProfileStore.CreateProfile` | anthill/people/models.py:48-52 | Creates and saves one default profile for the account exactly when the account was just created. Otherwise the profile table is unchanged. |
| `People.ProfileStore.SaveUser` | anthill/people/models.py:49-52 | Saving an account creates it when it is new, then runs the hook. Existing profiles, and with them their email counts, are kept. A new account gets exactly one fresh, saved, default profile. The invariant is kept: every account owns exactly one profile, and every profile belongs to an account. |
| `Events.Find` | anthill/events/views.py:55 | Lookup by key: the position of an event with that key, or none only when no event has it. |
| `Events.Apply` | anthill/events/views.py:92-94 | Binding the event form to an event copies in the cleaned value of every field that passed validation. Fields that failed keep the event's value, and the key and creator stay. Copying values the event already holds changes nothing. |
| `Events.Finished` | anthill/events/views.py:56-60 | Finished means the end date lies strictly before now when the event has one, and the start date does otherwise. An event ending exactly now is not finished. |
| `Events.FinishedStays` | anthill/events/views.py:56-60 | An event finished at one instant is finished at every later instant. |
| `Events.RsvpFor` | anthill/events/views.py:62-69 | An attendance is recorded exactly when the event is not finished, the method is POST, the user is signed in and the form is valid. It carries the user, the event's key, and the form's guests and message. When the gate is closed, an empty form is shown. |
| `Events.EditFor` | anthill/events/views.py:88-101 | Refused exactly when the user is neither creator nor staff. A permitted valid POST saves the form's fields into the event, keeping key and creator. A permitted invalid POST re-shows the submitted data beside the event with its validated fields copied in. Any other method shows the current event. |
| `Events.CreateFor` | anthill/events/views.py:114-127 | A valid POST creates an event whose creator is the requesting user, with the form's fields. An invalid POST re-shows the data. Any other method shows an empty form. |
| `Events.Search` | anthill/events/views.py:22-39 | At most 5 upcoming events are listed: the first five future ones. A search happens exactly when the query is non-empty. The page fails exactly when the query is non-empty and the form is invalid. Otherwise the result query starts with "future only". It has a title filter exactly when the name is non-empty, and a distance filter exactly when the location is non-empty. |
| `EventViews.EventStore.EventDetail` | anthill/events/views.py:44-72 | A missing event gives "not found" with no change. Otherwise the page shows the event, its finished flag and the RSVP form. At most the one attendance of `RsvpFor` is appended, and nothing else changes. |
| `EventViews.EventStore.EditEvent` | anthill/events/views.py:74-101 | An anonymous visitor is sent to log in, and a missing event gives "not found". A user who is neither creator nor staff gets "forbidden" and the event table is unchanged. A saved edit replaces only that event and redirects. An invalid POST stores nothing and shows the event as the form left it in memory. |
| `EventViews.EventStore.NewEvent` | anthill/events/views.py:103-127 | An anonymous visitor is sent to log in. A valid POST appends exactly one event, created by the requesting user, under a fresh key, and redirects to it. Otherwise nothing is stored. |

## Left out

- Geocoding (`_geocode`), the distance search (`search_by_distance`) and the geocoding done by `LocationModel.save`. These are network calls and floating-point spatial queries. The coordinate field `lat_long` is not modelled.
- Events.Search: describes the result query as a list of filters; it does not evaluate the case-insensitive title match or the distance filter on events. There is no case folding on strings here, and the distance filter needs the geocoder.
- Which events count as "future" (`Event.objects.future()`): `anthill/events/models.py` is not part of this model. The future events are an input of `Search`.
- Events.EditFor: follows Django 1.2 to 1.4, where an invalid edit POST shows the event with its validated fields copied in. On Django 1.1 a model form changes its instance only when saved, so there the page shows the event unmodified.
- People.Profile.constructor: uses the default allowance of 100 messages. A deployment can override it with the `ANTHILL_MESSAGE_MAX` setting; the value-level `EmailLimit` functions take any allowance.
- People.Profile.CanSendEmail: uses the default wait period of 60 minutes. A deployment can override that setting; the value-level `EmailLimit.CanSend` takes any wait period.
- The archive pages (`archive`, `archive_year`, `archive_month`) delegate entirely to the framework's list and date-archive views.
- Template rendering, redirects to absolute URLs (modelled as `Redirect(key)`), the login page, and the form classes' own validation rules (`EventForm`, `AttendForm`, `SearchForm`). The event form is assumed to carry the editable fields only (title, dates, location), not the creator.
- `form.save_m2m()`, tags, markup and URL fields of profiles (`about`, `skills`), `__unicode__`, and the `message_sent` signal, which has no logic.
- The database's one-to-one uniqueness check on `Profile.user`. The store's invariant shows the hook never needs it.
- The real clock (`datetime.now()`), and the bounds of time values: a wait period so large that the time difference overflows is not modelled.
- Transactions and concurrent requests: each page runs alone, as one step on the store.
