/**
 * The `useEvents` hook (mini-dashboard/src/hooks/useEvents.tsx): the status
 * normaliser, the builder that turns each upstream user into one synthetic
 * event, and the data/loading/error state the hook publishes.
 *
 * `Math.random()` is an injected stream `rand` of reals in [0, 1): the i-th call
 * returns `rand(i)`. The clock is a parameter `now`.
 */
module UseEvents {
  import opened Types

  /** The status strings a record is drawn from; the first is the API's misspelling of "success". */
  const RawStatuses: seq<string> := ["sucess", "pending", "failed"]

  /** The event types a record is drawn from, in the source's order. */
  const EventTypes: seq<EventType> := [Login, Logout, Update, Purchase]

  /**
   * `normalizeStatus`: every string maps to a canonical status. The misspelling
   * "sucess" becomes Success, the three canonical spellings map to themselves,
   * and anything else (the empty string included) falls back to Pending.
   */
  function NormalizeStatus(raw: string): (s: EventStatus)
    ensures raw == "sucess" ==> s == Success
    ensures forall c: EventStatus :: raw == StatusName(c) ==> s == c
    ensures raw !in ["sucess", "success", "pending", "failed"] ==> s == Pending
  {
    if raw == "sucess" then Success
    else if raw == "pending" then Pending
    else if raw == "failed" then Failed
    else if raw == "success" then Success
    else Pending
  }

  /** A canonical spelling survives normalisation. */
  lemma NormalizeCanonical(c: EventStatus)
    ensures NormalizeStatus(StatusName(c)) == c
  {
  }

  /** Normalising twice is normalising once. */
  lemma NormalizeIdempotent(raw: string)
    ensures NormalizeStatus(StatusName(NormalizeStatus(raw))) == NormalizeStatus(raw)
  {
    NormalizeCanonical(NormalizeStatus(raw));
  }

  /** `Math.floor(r * n)` for a draw `r` in [0, 1): an index below `n`. */
  function Pick(r: real, n: nat): (i: nat)
    requires 0.0 <= r < 1.0 && n > 0
    ensures i < n
    ensures i as real <= r * n as real < i as real + 1.0
  {
    assert r * n as real < n as real by {
      assert r * n as real < 1.0 * n as real;
    }
    (r * n as real).Floor
  }

  /** The five random draws made for one user, in the order the source makes them. */
  datatype Draws = Draws(status: real, eventType: real, daysBack: real, daysForward: real, amount: real)

  ghost predicate ValidDraws(d: Draws)
  {
    && 0.0 <= d.status < 1.0
    && 0.0 <= d.eventType < 1.0
    && 0.0 <= d.daysBack < 1.0
    && 0.0 <= d.daysForward < 1.0
    && 0.0 <= d.amount < 1.0
  }

  /** A random source: every value is in [0, 1), as `Math.random()` promises. */
  ghost predicate ValidSource(rand: nat -> real)
  {
    forall i :: 0.0 <= rand(i) < 1.0
  }

  /** The draws the k-th user receives: the five calls after the 5k calls made for earlier users. */
  function DrawsAt(rand: nat -> real, k: nat): (d: Draws)
    requires ValidSource(rand)
    ensures ValidDraws(d)
  {
    Draws(rand(5 * k), rand(5 * k + 1), rand(5 * k + 2), rand(5 * k + 3), rand(5 * k + 4))
  }

  function FullName(u: UpstreamUser): string
  {
    u.firstName + " " + u.lastName
  }

  /**
   * The record built for one upstream user. Its status is never the misspelling:
   * the raw draw is normalised, so a draw below 1/3 (which picks "sucess") gives
   * Success. The amount is `Math.floor(r * 1000)`, so in [0, 999]. The timestamp
   * goes back floor(30u) days from `now` and then forward floor(30v) days, so it is `now`
   * shifted by a whole number of days between -29 and +29 and may lie in the future.
   */
  function MakeEvent(u: UpstreamUser, d: Draws, now: int): (e: UserEvent)
    requires ValidDraws(d)
    ensures e.id == u.id && e.user == FullName(u)
    ensures e.status == Success <==> d.status < 1.0 / 3.0
    ensures e.status == Pending <==> 1.0 / 3.0 <= d.status < 2.0 / 3.0
    ensures e.status == Failed <==> 2.0 / 3.0 <= d.status
    ensures e.eventType == Login <==> d.eventType < 0.25
    ensures e.eventType == Logout <==> 0.25 <= d.eventType < 0.5
    ensures e.eventType == Update <==> 0.5 <= d.eventType < 0.75
    ensures e.eventType == Purchase <==> 0.75 <= d.eventType
    ensures e.amount == Some(Pick(d.amount, 1000)) && 0 <= e.amount.value <= 999
    ensures e.createdAt == AddDays(SubDays(now, Pick(d.daysBack, 30)), Pick(d.daysForward, 30))
    ensures now - 29 * MsPerDay <= e.createdAt <= now + 29 * MsPerDay
    ensures (e.createdAt - now) % MsPerDay == 0
  {
    var rawStatus := RawStatuses[Pick(d.status, 3)];
    var back := Pick(d.daysBack, 30);
    var forward := Pick(d.daysForward, 30);
    var createdAt := AddDays(SubDays(now, back), forward);
    assert createdAt - now == (forward - back) * MsPerDay;
    UserEvent(
      u.id,
      FullName(u),
      EventTypes[Pick(d.eventType, 4)],
      NormalizeStatus(rawStatus),
      createdAt,
      Some(Pick(d.amount, 1000)))
  }

  /**
   * `res.data.users.map(...)`: exactly one event per upstream user, in the same
   * order, carrying the user's id and full name, all with amounts in [0, 999]
   * and timestamps within 29 days of `now`.
   */
  function BuildEvents(users: seq<UpstreamUser>, rand: nat -> real, now: int): (events: seq<UserEvent>)
    requires ValidSource(rand)
    ensures |events| == |users|
    ensures forall k :: 0 <= k < |users| ==> events[k].id == users[k].id && events[k].user == FullName(users[k])
    ensures forall k :: 0 <= k < |users| ==> events[k] == MakeEvent(users[k], DrawsAt(rand, k), now)
    ensures forall e :: e in events ==>
              && e.amount.Some? && 0 <= e.amount.value <= 999
              && now - 29 * MsPerDay <= e.createdAt <= now + 29 * MsPerDay
  {
    seq(|users|, k requires 0 <= k < |users| => MakeEvent(users[k], DrawsAt(rand, k), now))
  }

  /** What the awaited request did: resolved with the users, or threw. */
  datatype Thrown = ErrorObject(message: string) | NonError
  datatype FetchOutcome = Resolved(users: seq<UpstreamUser>) | Rejected(thrown: Thrown)

  /** The message the catch block stores: the Error's own message, or a fixed text for anything else thrown. */
  function ErrorText(t: Thrown): string
  {
    match t
    case ErrorObject(message) => message
    case NonError => "An error occurred"
  }

  /** The three state cells of the hook. */
  class EventStore {
    var data: seq<UserEvent>
    var loading: bool
    var error: Option<string>

    /** The initial state: no data, loading, no error. */
    constructor ()
      ensures data == [] && loading && error == None
    {
      data := [];
      loading := true;
      error := None;
    }

    /** `setLoading(true)` at the start of `fetchEvents`, before the request is awaited. */
    method BeginFetch()
      modifies this
      ensures loading
      ensures data == old(data) && error == old(error)
    {
      loading := true;
    }

    /**
     * The rest of `fetchEvents` once the request settles: on success the built
     * events replace `data`; on failure the error text is stored and `data` is
     * left as it was; either way `loading` ends false.
     */
    method Settle(outcome: FetchOutcome, rand: nat -> real, now: int)
      requires ValidSource(rand)
      modifies this
      ensures !loading
      ensures outcome.Resolved? ==> data == BuildEvents(outcome.users, rand, now) && error == old(error)
      ensures outcome.Rejected? ==> data == old(data) && error == Some(ErrorText(outcome.thrown))
    {
      match outcome {
        case Resolved(users) =>
          var events := BuildEvents(users, rand, now);
          data := events;
        case Rejected(thrown) =>
          if thrown.ErrorObject? {
            error := Some(thrown.message);
          } else {
            error := Some("An error occurred");
          }
      }
      loading := false;
    }

    /** `retry`: clears `data` and nothing else; it does not fetch again. */
    method Retry()
      modifies this
      ensures data == [] && loading == old(loading) && error == old(error)
    {
      data := [];
    }
  }

  /**
   * An example client of the store, not a part of the hook: one mount whose
   * request fails, then a retry.
   */
  method FailedFetchScenario(rand: nat -> real, now: int)
    requires ValidSource(rand)
  {
    var store := new EventStore();
    store.BeginFetch();
    assert store.loading && store.data == [] && store.error == None;
    store.Settle(Rejected(ErrorObject("Network Error")), rand, now);
    assert !store.loading && store.data == [] && store.error == Some("Network Error");
    store.Retry();
    assert !store.loading && store.data == [] && store.error == Some("Network Error");
  }
}
