/** The farmer dashboard's state and handlers (components/FarmerDashboard.tsx).

    Each handler runs to completion: the service call it awaits is an ordinary
    method call on the shared `AdvisoryStore`. Random mock weather, the network
    flag the service reads and the clock are parameters; speech synthesis is
    reduced to the command a handler would issue. */
module FarmerDashboard {
  import opened Types
  import opened GeminiService

  /** What a read-aloud request would hand to speech synthesis. */
  datatype Utterance = Utterance(text: string, lang: string)

  /** What handleSpeak does to speech synthesis: nothing, cancel, or speak. */
  datatype SpeechCommand = Silent | CancelSpeech | StartSpeech(utterance: Utterance)

  /** The alert banner's colour scheme (red, amber or green classes). */
  datatype AlertColor = Red | Amber | Green

  /** The order of the language button's cycle. */
  const Languages: seq<Language> := [English, Hindi, Tamil]

  /** `langs.indexOf(language)`: every language is in the cycle. */
  function IndexOfLanguage(l: Language): (i: nat)
    ensures i < |Languages| && Languages[i] == l
  {
    match l
    case English => 0
    case Hindi => 1
    case Tamil => 2
  }

  /** The language after one press of the language button. */
  function NextLanguage(l: Language): (r: Language)
    ensures r != l
    ensures l == English ==> r == Hindi
    ensures l == Hindi ==> r == Tamil
    ensures l == Tamil ==> r == English
  {
    Languages[(IndexOfLanguage(l) + 1) % |Languages|]
  }

  /** Three presses bring the original language back. */
  lemma ThreeTogglesRestore(l: Language)
    ensures NextLanguage(NextLanguage(NextLanguage(l))) == l
  {
  }

  /** Pressing repeatedly reaches every language. */
  lemma TogglesReachEveryLanguage(l: Language, target: Language)
    ensures target == l || target == NextLanguage(l) || target == NextLanguage(NextLanguage(l))
  {
  }

  /** `Array.prototype.join`: the items with `sep` between neighbours. A join
      of a non-empty list begins with the first item. */
  function Join(items: seq<string>, sep: string): (r: string)
    ensures |items| == 0 ==> r == ""
    ensures |items| > 0 ==> |items[0]| <= |r| && r[..|items[0]|] == items[0]
    decreases |items|
  {
    if |items| == 0 then ""
    else if |items| == 1 then items[0]
    else items[0] + sep + Join(items[1..], sep)
  }

  /** A join of a non-empty list ends with the last item. */
  lemma {:induction false} JoinEndsWithLast(items: seq<string>, sep: string)
    requires |items| > 0
    ensures var r := Join(items, sep);
            |items[|items| - 1]| <= |r| && r[|r| - |items[|items| - 1]|..] == items[|items| - 1]
    decreases |items|
  {
    if |items| > 1 {
      JoinEndsWithLast(items[1..], sep);
      assert items[1..][|items| - 2] == items[|items| - 1];
    }
  }

  /** The total length of the items. */
  function TotalLength(items: seq<string>): nat
    decreases |items|
  {
    if |items| == 0 then 0 else |items[0]| + TotalLength(items[1..])
  }

  /** Joining two non-empty lists is joining each and putting one separator between. */
  lemma {:induction false} JoinConcat(xs: seq<string>, ys: seq<string>, sep: string)
    requires |xs| > 0 && |ys| > 0
    ensures Join(xs + ys, sep) == Join(xs, sep) + sep + Join(ys, sep)
    decreases |xs|
  {
    assert (xs + ys)[0] == xs[0];
    if |xs| == 1 {
      assert (xs + ys)[1..] == ys;
    } else {
      assert (xs + ys)[1..] == xs[1..] + ys;
      JoinConcat(xs[1..], ys, sep);
    }
  }

  /** A join of n >= 1 items is as long as the items together plus n - 1 separators. */
  lemma {:induction false} JoinLength(items: seq<string>, sep: string)
    requires |items| > 0
    ensures |Join(items, sep)| == TotalLength(items) + (|items| - 1) * |sep|
    decreases |items|
  {
    if |items| > 1 {
      JoinLength(items[1..], sep);
    }
  }

  const ItemSeparator: string := ". "
  const LevelPrefix: string := ". Alert Level: "

  /** The text read aloud: the title, the action items, then the alert level. */
  function SpeechText(a: AdvisoryResponse): (text: string)
    ensures |text| == |a.advisoryTitle| + |ItemSeparator| + |Join(a.actionItems, ItemSeparator)|
                      + |LevelPrefix| + |AlertLevelName(a.alertLevel)|
    ensures text[..|a.advisoryTitle|] == a.advisoryTitle
    ensures text[|a.advisoryTitle|..|a.advisoryTitle| + |ItemSeparator|] == ItemSeparator
    ensures text[|a.advisoryTitle| + |ItemSeparator|..|text| - |AlertLevelName(a.alertLevel)|]
            == Join(a.actionItems, ItemSeparator) + LevelPrefix
    ensures text[|text| - |AlertLevelName(a.alertLevel)|..] == AlertLevelName(a.alertLevel)
  {
    a.advisoryTitle + ItemSeparator + Join(a.actionItems, ItemSeparator) + LevelPrefix
      + AlertLevelName(a.alertLevel)
  }

  /** With n items, the spoken text holds n separators: one after the title and
      n - 1 between items. */
  lemma SpeechTextLength(a: AdvisoryResponse)
    requires |a.actionItems| > 0
    ensures |SpeechText(a)| == |a.advisoryTitle| + TotalLength(a.actionItems)
                               + |a.actionItems| * |ItemSeparator| + |LevelPrefix|
                               + |AlertLevelName(a.alertLevel)|
  {
    JoinLength(a.actionItems, ItemSeparator);
  }

  /** One more action item is read after all the others, behind one ". ". */
  lemma SpeechTextWithExtraItem(a: AdvisoryResponse, item: string)
    requires |a.actionItems| > 0
    ensures SpeechText(a.(actionItems := a.actionItems + [item]))
            == a.advisoryTitle + ItemSeparator + Join(a.actionItems, ItemSeparator) + ItemSeparator
               + item + LevelPrefix + AlertLevelName(a.alertLevel)
  {
    JoinConcat(a.actionItems, [item], ItemSeparator);
  }

  /** The speech locale for the selected language. */
  function SpeechLocale(l: Language): (code: string)
    ensures code == "hi-IN" <==> l == Hindi
    ensures code == "ta-IN" <==> l == Tamil
    ensures code == "en-IN" <==> l == English
  {
    match l
    case Hindi => "hi-IN"
    case Tamil => "ta-IN"
    case _ => "en-IN"
  }

  /** getAlertColor: red for HIGH, amber for MEDIUM, green otherwise. */
  function AlertColorOf(level: AlertLevel): (c: AlertColor)
    ensures c == Red <==> level == High
    ensures c == Amber <==> level == Medium
  {
    if level == High then Red
    else if level == Medium then Amber
    else Green
  }

  /** The alert banner is rendered for HIGH and MEDIUM only. */
  predicate ShowsAlertBanner(level: AlertLevel)
  {
    level == High || level == Medium
  }

  /** A banner is shown exactly when its colour is not the all-clear green. */
  lemma BannerIffNotGreen(level: AlertLevel)
    ensures ShowsAlertBanner(level) <==> AlertColorOf(level) != Green
  {
  }

  const DefaultBannerMessage: string := "Weather conditions require attention."

  /** The banner text: the alert message unless it is absent or empty. */
  function BannerMessage(a: AdvisoryResponse): (m: string)
    ensures m != ""
    ensures a.alertMessage.Some? && a.alertMessage.value != "" ==> m == a.alertMessage.value
    ensures a.alertMessage.None? || a.alertMessage.value == "" ==> m == DefaultBannerMessage
  {
    match a.alertMessage
    case Some(msg) => if msg != "" then msg else DefaultBannerMessage
    case None => DefaultBannerMessage
  }

  class Dashboard {
    /** Browser storage, shared with every other page of the app. */
    const store: AdvisoryStore
    var weather: WeatherData
    var advisory: Option<AdvisoryResponse>
    var weeklyPlan: Option<WeeklyPlan>
    var loading: bool
    var weeklyLoading: bool
    var language: Language
    var isSpeaking: bool
    /** The listener-maintained offline flag that guards refresh and download. */
    var isOffline: bool

    /** The state on mount; the mount effect then calls FetchAdvisory. */
    constructor (store: AdvisoryStore, weather: WeatherData, online: bool)
      ensures this.store == store && this.weather == weather
      ensures advisory == None && weeklyPlan == None
      ensures loading && !weeklyLoading && !isSpeaking
      ensures language == English && isOffline == !online
    {
      this.store := store;
      this.weather := weather;
      advisory := None;
      weeklyPlan := None;
      loading := true;
      weeklyLoading := false;
      language := English;
      isSpeaking := false;
      isOffline := !online;
    }

    /** The 'online' and 'offline' window events. */
    method ConnectivityChanged(online: bool)
      modifies this`isOffline
      ensures isOffline == !online
    {
      isOffline := !online;
    }

    /** fetchAdvisory: show the service's advisory, then the saved weekly plan
        if there is one (an absent plan never clears the one shown). It runs on
        mount and again after every language change. */
    method FetchAdvisory(online: bool, outcome: RemoteOutcome<AdvisoryPayload>, now: int)
      requires store.Valid()
      modifies this`advisory, this`loading, this`weeklyPlan, store`advisoryCache
      ensures store.Valid()
      ensures var s := AdvisoryPolicy(online, old(store.advisoryCache), outcome, now);
              advisory == Some(s.result) && store.advisoryCache == s.stored
      ensures !loading
      ensures weeklyPlan == if store.weeklyCache.Some? then store.weeklyCache else old(weeklyPlan)
    {
      loading := true;
      var data := store.GenerateCropAdvisory(online, outcome, now);
      advisory := Some(data);
      loading := false;
      var cachedPlan := store.GetCachedWeeklyPlan();
      if cachedPlan.Some? {
        weeklyPlan := cachedPlan;
      }
    }

    /** handleRefresh: refused while offline; otherwise new weather, then the
        advisory for it. */
    method Refresh(newWeather: WeatherData, online: bool, outcome: RemoteOutcome<AdvisoryPayload>, now: int)
      requires store.Valid()
      modifies this`weather, this`advisory, this`loading, store`advisoryCache
      ensures store.Valid()
      ensures isOffline ==>
                weather == old(weather) && advisory == old(advisory) && loading == old(loading)
                && store.advisoryCache == old(store.advisoryCache)
      ensures !isOffline ==>
                var s := AdvisoryPolicy(online, old(store.advisoryCache), outcome, now);
                weather == newWeather && advisory == Some(s.result)
                && store.advisoryCache == s.stored && !loading
    {
      if isOffline {
        return;
      }
      weather := newWeather;
      loading := true;
      var data := store.GenerateCropAdvisory(online, outcome, now);
      advisory := Some(data);
      loading := false;
    }

    /** handleDownloadWeekly: refused while offline; otherwise the plan shown
        is whatever the service returns, none included. */
    method DownloadWeekly(online: bool, outcome: RemoteOutcome<WeeklyPayload>, now: int)
      modifies this`weeklyPlan, this`weeklyLoading, store`weeklyCache
      ensures isOffline ==>
                weeklyPlan == old(weeklyPlan) && weeklyLoading == old(weeklyLoading)
                && store.weeklyCache == old(store.weeklyCache)
      ensures !isOffline ==>
                var s := WeeklyPolicy(online, old(store.weeklyCache), outcome, now);
                weeklyPlan == s.result && store.weeklyCache == s.stored && !weeklyLoading
    {
      if isOffline {
        return;
      }
      weeklyLoading := true;
      var plan := store.GenerateWeeklyPlan(online, outcome, now);
      weeklyPlan := plan;
      weeklyLoading := false;
    }

    /** toggleLanguage. */
    method ToggleLanguage()
      modifies this`language
      ensures language == NextLanguage(old(language))
    {
      var i := IndexOfLanguage(language);
      language := Languages[(i + 1) % |Languages|];
    }

    /** handleSpeak: nothing without an advisory; stop while speaking;
        otherwise speak the advisory in the selected language's locale. */
    method Speak() returns (cmd: SpeechCommand)
      modifies this`isSpeaking
      ensures advisory.None? ==> cmd == Silent && isSpeaking == old(isSpeaking)
      ensures advisory.Some? && old(isSpeaking) ==> cmd == CancelSpeech && !isSpeaking
      ensures advisory.Some? && !old(isSpeaking) ==>
                cmd == StartSpeech(Utterance(SpeechText(advisory.value), SpeechLocale(language)))
                && isSpeaking
    {
      if advisory.None? {
        return Silent;
      }
      if isSpeaking {
        isSpeaking := false;
        return CancelSpeech;
      }
      var text := SpeechText(advisory.value);
      var lang := SpeechLocale(language);
      isSpeaking := true;
      cmd := StartSpeech(Utterance(text, lang));
    }

    /** The utterance's end event. */
    method SpeechEnded()
      modifies this`isSpeaking
      ensures !isSpeaking
    {
      isSpeaking := false;
    }
  }
}
