/** The offline-first advisory service (services/geminiService.ts).

    The remote model call and the JSON parse of its text are one input, a
    `RemoteOutcome`; `navigator.onLine` is the `online` flag and `Date.now()`
    is `now`. Browser storage is an `AdvisoryStore` object with one optional
    slot per storage key, holding typed records in place of JSON text. */
module GeminiService {
  import opened Types

  /** The advisory body the response schema admits: no timestamp, no offline flag. */
  datatype AdvisoryPayload = AdvisoryPayload(
    advisoryTitle: string,
    actionItems: seq<string>,
    alertLevel: AlertLevel,
    alertMessage: Option<string>,
    reasoning: string)

  /** The weekly-plan body the response schema admits: no generation time. */
  datatype WeeklyPayload = WeeklyPayload(days: seq<DayPlan>, generalAdvice: string)

  /** What the remote call and the parse of its text came to: a parsed body,
      an empty text, text that does not parse, or a call that threw. */
  datatype RemoteOutcome<T> = Ok(value: T) | EmptyText | ParseError | Threw

  /** The result an advisory request returns, and the advisory slot after it. */
  datatype AdvisoryStep = AdvisoryStep(result: AdvisoryResponse, stored: Option<AdvisoryResponse>)

  /** The result a weekly-plan request returns, and the weekly slot after it. */
  datatype WeeklyStep = WeeklyStep(result: Option<WeeklyPlan>, stored: Option<WeeklyPlan>)

  const NoDataTitle: string := "No Connection & No Data"
  const UnreachableTitle: string := "Service Unreachable"
  const ServerErrorNotice: string := "Using saved data (Server Error)"
  const NoDataItem: string := "Please connect to the internet to download initial advisories."
  const NoDataReasoning: string := "Offline mode requires at least one previous successful sync."
  const CheckConnectionItem: string := "Check internet connection."
  const TryLaterItem: string := "Try again later."
  const UnreachableReasoning: string := "Server connection failed."

  /** Shown offline when nothing was ever saved. */
  function NoDataPlaceholder(): (r: AdvisoryResponse)
    ensures r.advisoryTitle == NoDataTitle && |r.actionItems| == 1 && r.alertLevel == Low
    ensures r.isOfflineData == Some(true) && r.timestamp == None && r.alertMessage == None
  {
    AdvisoryResponse(
      NoDataTitle,
      [NoDataItem],
      Low, None,
      NoDataReasoning,
      None, Some(true))
  }

  /** Shown online when the call failed and nothing was ever saved. */
  function UnreachablePlaceholder(): (r: AdvisoryResponse)
    ensures r.advisoryTitle == UnreachableTitle && |r.actionItems| == 2 && r.alertLevel == Low
    ensures r.isOfflineData == None && r.timestamp == None && r.alertMessage == None
  {
    AdvisoryResponse(
      UnreachableTitle,
      [CheckConnectionItem, TryLaterItem],
      Low, None,
      UnreachableReasoning,
      None, None)
  }

  /** The parsed body with the fetch time added (`{ ...result, timestamp }`). */
  function Stamp(p: AdvisoryPayload, now: int): (r: AdvisoryResponse)
    ensures PayloadOf(r) == p
    ensures r.timestamp == Some(now) && r.isOfflineData == None
  {
    AdvisoryResponse(p.advisoryTitle, p.actionItems, p.alertLevel, p.alertMessage, p.reasoning, Some(now), None)
  }

  /** The schema fields of an advisory, without its metadata. */
  function PayloadOf(a: AdvisoryResponse): AdvisoryPayload
  {
    AdvisoryPayload(a.advisoryTitle, a.actionItems, a.alertLevel, a.alertMessage, a.reasoning)
  }

  /** What the advisory slot may hold: only records written on a successful
      fetch, which carry their fetch time and no offline flag. */
  predicate SavedAdvisory(slot: Option<AdvisoryResponse>)
  {
    slot.Some? ==> slot.value.timestamp.Some? && slot.value.isOfflineData.None?
  }

  /** A saved record served as offline data (`{ ...parsed, isOfflineData: true }`). */
  function MarkOffline(c: AdvisoryResponse): (r: AdvisoryResponse)
    ensures r.isOfflineData == Some(true) && r.timestamp == c.timestamp
    ensures r.(isOfflineData := c.isOfflineData) == c
  {
    c.(isOfflineData := Some(true))
  }

  /** A saved record served after a server error, its alert message replaced. */
  function MarkServerError(c: AdvisoryResponse): (r: AdvisoryResponse)
    ensures r.isOfflineData == Some(true) && r.timestamp == c.timestamp
    ensures r.alertMessage == Some(ServerErrorNotice)
    ensures r.(isOfflineData := c.isOfflineData, alertMessage := c.alertMessage) == c
  {
    c.(isOfflineData := Some(true), alertMessage := Some(ServerErrorNotice))
  }

  /** The advisory policy of generateCropAdvisory: what is returned and what the
      advisory slot holds afterwards, for every connectivity, cache and remote
      outcome. */
  function AdvisoryPolicy(online: bool, cached: Option<AdvisoryResponse>,
                          outcome: RemoteOutcome<AdvisoryPayload>, now: int): (s: AdvisoryStep)
    // The slot is written only by an online call that produced a parsed body,
    // and then holds exactly the returned record, with the fetch time.
    ensures !(online && outcome.Ok?) ==> s.stored == cached
    ensures online && outcome.Ok? ==>
              s.stored == Some(s.result) && PayloadOf(s.result) == outcome.value
              && s.result.timestamp == Some(now) && s.result.isOfflineData == None
    // Offline with a saved record: that record, flagged, with its own timestamp.
    ensures !online && cached.Some? ==>
              s.result.isOfflineData == Some(true)
              && s.result.(isOfflineData := cached.value.isOfflineData) == cached.value
    // Offline and nothing saved: the one-item "no data" placeholder, not saved.
    ensures !online && cached.None? ==>
              s.result.advisoryTitle == NoDataTitle && |s.result.actionItems| == 1
              && s.result.alertLevel == Low && s.result.isOfflineData == Some(true)
              && s.stored == None
    // Online failure (empty text, parse error, throw) with a saved record:
    // that record, flagged, its alert message replaced by the server-error notice.
    ensures online && !outcome.Ok? && cached.Some? ==>
              s.result.isOfflineData == Some(true)
              && s.result.alertMessage == Some(ServerErrorNotice)
              && s.result.(isOfflineData := cached.value.isOfflineData,
                           alertMessage := cached.value.alertMessage) == cached.value
    // Online failure and nothing saved: the two-item "unreachable" placeholder,
    // unflagged and not saved.
    ensures online && !outcome.Ok? && cached.None? ==>
              s.result.advisoryTitle == UnreachableTitle && |s.result.actionItems| == 2
              && s.result.alertLevel == Low && s.result.isOfflineData == None
              && s.stored == None
    // A saved record keeps its fetch time whenever it is served.
    ensures s.result.isOfflineData == Some(true) && cached.Some? ==>
              s.result.timestamp == cached.value.timestamp
  {
    if !online then
      match cached
      case Some(c) => AdvisoryStep(MarkOffline(c), cached)
      case None => AdvisoryStep(NoDataPlaceholder(), cached)
    else if outcome.Ok? then
      var r := Stamp(outcome.value, now);
      AdvisoryStep(r, Some(r))
    else
      // Empty text, a parse error and a throw all land in the same handler.
      match cached
      case Some(c) => AdvisoryStep(MarkServerError(c), cached)
      case None => AdvisoryStep(UnreachablePlaceholder(), cached)
  }

  /** The slot never comes to hold a placeholder or a flagged record. */
  lemma AdvisoryPolicyKeepsSaved(online: bool, cached: Option<AdvisoryResponse>,
                                 outcome: RemoteOutcome<AdvisoryPayload>, now: int)
    requires SavedAdvisory(cached)
    ensures SavedAdvisory(AdvisoryPolicy(online, cached, outcome, now).stored)
  {
  }

  /** With a saved-only slot, the advisory shown carries a fetch time (the
      dashboard's "Last updated") exactly when it was just fetched or comes
      from a saved record; only the two placeholders have none. */
  lemma ServedTimestampKnown(online: bool, cached: Option<AdvisoryResponse>,
                             outcome: RemoteOutcome<AdvisoryPayload>, now: int)
    requires SavedAdvisory(cached)
    ensures AdvisoryPolicy(online, cached, outcome, now).result.timestamp.Some?
            <==> (online && outcome.Ok?) || cached.Some?
  {
  }

  /** The weekly-plan policy of generateWeeklyPlan. */
  function WeeklyPolicy(online: bool, cached: Option<WeeklyPlan>,
                        outcome: RemoteOutcome<WeeklyPayload>, now: int): (s: WeeklyStep)
    // Offline: the saved plan as saved (or none); nothing is written.
    ensures !online ==> s.result == cached && s.stored == cached
    // Online failure: no plan, whatever is saved; nothing is written.
    ensures online && !outcome.Ok? ==> s.result == None && s.stored == cached
    // Online success: the slot holds the parsed plan with its generation time,
    // and the plan is returned without it.
    ensures online && outcome.Ok? ==>
              s.result.Some? && s.stored.Some?
              && s.result.value.days == outcome.value.days
              && s.result.value.generalAdvice == outcome.value.generalAdvice
              && s.result.value.generatedAt == None
              && s.stored.value.generatedAt == Some(now)
              && s.stored.value.(generatedAt := None) == s.result.value
  {
    if !online then WeeklyStep(cached, cached)
    else
      match outcome
      case Ok(p) =>
        var plan := WeeklyPlan(p.days, p.generalAdvice, None);
        WeeklyStep(Some(plan), Some(plan.(generatedAt := Some(now))))
      case _ => WeeklyStep(None, cached)
  }

  /** A failed online weekly request never looks at the saved plan. */
  lemma WeeklyFailureIgnoresCache(c1: Option<WeeklyPlan>, c2: Option<WeeklyPlan>,
                                  outcome: RemoteOutcome<WeeklyPayload>, now: int)
    requires !outcome.Ok?
    ensures WeeklyPolicy(true, c1, outcome, now).result == WeeklyPolicy(true, c2, outcome, now).result
  {
  }

  /** Write-through: after a successful online fetch an offline request serves
      the same record, flagged, with the same fetch time, and writes nothing. */
  lemma OfflineReadAfterFetch(cached: Option<AdvisoryResponse>, p: AdvisoryPayload, now: int,
                              outcome: RemoteOutcome<AdvisoryPayload>, later: int)
    ensures var fetched := AdvisoryPolicy(true, cached, Ok(p), now);
            var stale := AdvisoryPolicy(false, fetched.stored, outcome, later);
            stale.result == fetched.result.(isOfflineData := Some(true))
            && stale.result.timestamp == Some(now)
            && stale.stored == fetched.stored
  {
  }

  /** After a successful weekly fetch an offline request returns the saved plan:
      the returned one plus its generation time. */
  lemma OfflineWeeklyAfterFetch(cached: Option<WeeklyPlan>, p: WeeklyPayload, now: int,
                                outcome: RemoteOutcome<WeeklyPayload>, later: int)
    ensures var fetched := WeeklyPolicy(true, cached, Ok(p), now);
            var stale := WeeklyPolicy(false, fetched.stored, outcome, later);
            fetched.result.Some? && stale.result == Some(fetched.result.value.(generatedAt := Some(now)))
  {
  }

  /** Browser storage: one slot per key. */
  class AdvisoryStore {
    /** The record under 'kisan_advisory_cache'. */
    var advisoryCache: Option<AdvisoryResponse>
    /** The record under 'kisan_weekly_cache'. */
    var weeklyCache: Option<WeeklyPlan>

    /** The advisory slot holds only what a successful fetch wrote. */
    ghost predicate Valid()
      reads this`advisoryCache
    {
      SavedAdvisory(advisoryCache)
    }

    /** Storage as left by earlier sessions (it survives restarts); those
        sessions only ever saved stamped, unflagged advisories. */
    constructor (advisory: Option<AdvisoryResponse>, weekly: Option<WeeklyPlan>)
      requires SavedAdvisory(advisory)
      ensures Valid()
      ensures advisoryCache == advisory && weeklyCache == weekly
    {
      advisoryCache := advisory;
      weeklyCache := weekly;
    }

    /** generateCropAdvisory: never fails; writes only the advisory slot. */
    method GenerateCropAdvisory(online: bool, outcome: RemoteOutcome<AdvisoryPayload>, now: int)
      returns (r: AdvisoryResponse)
      requires Valid()
      modifies this`advisoryCache
      ensures Valid()
      ensures AdvisoryStep(r, advisoryCache) == AdvisoryPolicy(online, old(advisoryCache), outcome, now)
    {
      AdvisoryPolicyKeepsSaved(online, advisoryCache, outcome, now);
      if !online {
        var cached := advisoryCache;
        if cached.Some? {
          r := MarkOffline(cached.value);
        } else {
          r := NoDataPlaceholder();
        }
        return;
      }
      if outcome.Ok? {
        r := Stamp(outcome.value, now);
        advisoryCache := Some(r);
        return;
      }
      // Empty text, a parse error and a throw all land in the same handler.
      var cached := advisoryCache;
      if cached.Some? {
        r := MarkServerError(cached.value);
      } else {
        r := UnreachablePlaceholder();
      }
    }

    /** generateWeeklyPlan: returns a plan or none; writes only the weekly slot. */
    method GenerateWeeklyPlan(online: bool, outcome: RemoteOutcome<WeeklyPayload>, now: int)
      returns (r: Option<WeeklyPlan>)
      modifies this`weeklyCache
      ensures WeeklyStep(r, weeklyCache) == WeeklyPolicy(online, old(weeklyCache), outcome, now)
    {
      if !online {
        r := weeklyCache;
        return;
      }
      match outcome
      case Ok(p) =>
        var plan := WeeklyPlan(p.days, p.generalAdvice, None);
        weeklyCache := Some(plan.(generatedAt := Some(now)));
        r := Some(plan);
      case _ =>
        r := None;
    }

    /** getCachedWeeklyPlan: reads the weekly slot and changes nothing. */
    method GetCachedWeeklyPlan() returns (r: Option<WeeklyPlan>)
      ensures r == weeklyCache
    {
      r := weeklyCache;
    }
  }

  /** Two consecutive reads of the saved plan agree and leave storage as it was. */
  method ReadWeeklyTwice(store: AdvisoryStore) returns (first: Option<WeeklyPlan>, second: Option<WeeklyPlan>)
    ensures first == second == store.weeklyCache
  {
    first := store.GetCachedWeeklyPlan();
    second := store.GetCachedWeeklyPlan();
  }
}
