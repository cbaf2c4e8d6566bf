/** The app shell (App.tsx): who is signed in, with which profile, and which
    screen that selects. */
module App {
  import opened Types

  datatype View = Landing | OnboardingView | FarmerDashboardView(profile: FarmerProfile) | OfficerPanel

  /** The shell's two pieces of state. */
  datatype AppState = AppState(role: Option<UserRole>, profile: Option<FarmerProfile>)

  /** The state changes the shell's screens offer. */
  datatype Action =
    | ChooseFarmer                    // "I am a Farmer" on the landing screen
    | FarmerLogin(p: FarmerProfile)   // onboarding completes
    | OfficerLogin                    // "Extension Officer" on the landing screen
    | FarmerLogout                    // "Exit" on the farmer dashboard
    | OfficerLogout                   // "Logout" on the officer panel

  const InitialState: AppState := AppState(None, None)

  /** renderContent: the screen for a state. */
  function RenderView(s: AppState): (v: View)
    ensures v == Landing <==> s.role.None?
    ensures v == OnboardingView <==> s.role == Some(Farmer) && s.profile.None?
    ensures v.FarmerDashboardView? <==> s.role == Some(Farmer) && s.profile.Some?
    ensures v.FarmerDashboardView? ==> Some(v.profile) == s.profile
    ensures v == OfficerPanel <==> s.role == Some(ExtensionOfficer)
  {
    match s.role
    case None => Landing
    case Some(Farmer) =>
      if s.profile.None? then OnboardingView else FarmerDashboardView(s.profile.value)
    case Some(ExtensionOfficer) => OfficerPanel
  }

  /** The effect of each handler on the state: the two farmer entries set the
      farmer role, the officer entry the officer role, both logouts clear it;
      only a login sets the profile and only the farmer logout clears it. */
  function Apply(s: AppState, a: Action): (r: AppState)
    ensures r.role == Some(Farmer) <==> a == ChooseFarmer || a.FarmerLogin?
    ensures r.role == Some(ExtensionOfficer) <==> a == OfficerLogin
    ensures r.role.None? <==> a == FarmerLogout || a == OfficerLogout
    ensures a.FarmerLogin? ==> r.profile == Some(a.p)
    ensures a == FarmerLogout ==> r == InitialState
    ensures a == ChooseFarmer || a == OfficerLogin || a == OfficerLogout ==> r.profile == s.profile
  {
    match a
    case ChooseFarmer => s.(role := Some(Farmer))
    case FarmerLogin(p) => AppState(Some(Farmer), Some(p))
    case OfficerLogin => s.(role := Some(ExtensionOfficer))
    case FarmerLogout => AppState(None, None)
    case OfficerLogout => s.(role := None)
  }

  /** Whether the screen shown in `s` has a control for `a`: the landing
      buttons with no role, onboarding's completion for a farmer without a
      profile, "Exit" for a farmer with one, "Logout" for an officer. */
  function Offered(s: AppState, a: Action): (b: bool)
    ensures a == ChooseFarmer || a == OfficerLogin ==> (b <==> s.role.None?)
    ensures a.FarmerLogin? ==> (b <==> s.role == Some(Farmer) && s.profile.None?)
    ensures a == FarmerLogout ==> (b <==> s.role == Some(Farmer) && s.profile.Some?)
    ensures a == OfficerLogout ==> (b <==> s.role == Some(ExtensionOfficer))
  {
    match a
    case ChooseFarmer => RenderView(s) == Landing
    case OfficerLogin => RenderView(s) == Landing
    case FarmerLogin(_) => RenderView(s) == OnboardingView
    case FarmerLogout => RenderView(s).FarmerDashboardView?
    case OfficerLogout => RenderView(s) == OfficerPanel
  }

  /** The state after performing `trace` from `s`. */
  function Run(s: AppState, trace: seq<Action>): AppState
    decreases |trace|
  {
    if |trace| == 0 then s else Run(Apply(s, trace[0]), trace[1..])
  }

  /** Every action of `trace` is offered by the screen shown when it is taken. */
  predicate OfferedAlong(s: AppState, trace: seq<Action>)
    decreases |trace|
  {
    |trace| == 0 || (Offered(s, trace[0]) && OfferedAlong(Apply(s, trace[0]), trace[1..]))
  }

  /** Only a farmer has a profile. */
  predicate ProfileOnlyForFarmer(s: AppState)
  {
    s.profile.Some? ==> s.role == Some(Farmer)
  }

  /** Each offered action keeps "only a farmer has a profile". */
  lemma OfferedStepKeepsInvariant(s: AppState, a: Action)
    requires ProfileOnlyForFarmer(s) && Offered(s, a)
    ensures ProfileOnlyForFarmer(Apply(s, a))
  {
  }

  /** Using only the controls on screen, a profile never outlives the farmer role. */
  lemma {:induction false} OfferedRunKeepsInvariant(s: AppState, trace: seq<Action>)
    requires ProfileOnlyForFarmer(s) && OfferedAlong(s, trace)
    ensures ProfileOnlyForFarmer(Run(s, trace))
    decreases |trace|
  {
    if |trace| > 0 {
      OfferedStepKeepsInvariant(s, trace[0]);
      OfferedRunKeepsInvariant(Apply(s, trace[0]), trace[1..]);
    }
  }

  /** From the first screen, every screen reached through the UI satisfies it. */
  lemma ReachableStatesProfileOnlyForFarmer(trace: seq<Action>)
    requires OfferedAlong(InitialState, trace)
    ensures ProfileOnlyForFarmer(Run(InitialState, trace))
  {
    OfferedRunKeepsInvariant(InitialState, trace);
  }

  /** "I am a Farmer" on a reachable landing screen leads to onboarding. */
  lemma ChooseFarmerLeadsToOnboarding(s: AppState)
    requires ProfileOnlyForFarmer(s) && RenderView(s) == Landing
    ensures RenderView(Apply(s, ChooseFarmer)) == OnboardingView
  {
  }

  /** The state holder behind App. */
  class AppShell {
    var role: Option<UserRole>
    var profile: Option<FarmerProfile>

    function State(): AppState
      reads this
    {
      AppState(role, profile)
    }

    constructor ()
      ensures role == None && profile == None
    {
      role := None;
      profile := None;
    }

    /** The "I am a Farmer" button: the farmer role, the profile as it was. */
    method ChooseFarmerRole()
      modifies this`role
      ensures role == Some(Farmer)
      ensures State() == Apply(old(State()), ChooseFarmer)
    {
      role := Some(Farmer);
    }

    /** handleFarmerLogin. */
    method HandleFarmerLogin(p: FarmerProfile)
      modifies this
      ensures role == Some(Farmer) && profile == Some(p)
      ensures State() == Apply(old(State()), FarmerLogin(p))
      ensures RenderView(State()) == FarmerDashboardView(p)
    {
      profile := Some(p);
      role := Some(Farmer);
    }

    /** handleOfficerLogin: the officer role, the profile untouched. */
    method HandleOfficerLogin()
      modifies this`role
      ensures role == Some(ExtensionOfficer)
      ensures State() == Apply(old(State()), OfficerLogin)
      ensures RenderView(State()) == OfficerPanel
    {
      role := Some(ExtensionOfficer);
    }

    /** The dashboard's logout: role and profile both cleared. */
    method FarmerLogoutHandler()
      modifies this
      ensures role == None && profile == None
      ensures State() == Apply(old(State()), FarmerLogout)
      ensures RenderView(State()) == Landing
    {
      role := None;
      profile := None;
    }

    /** The officer panel's logout: only the role is cleared. */
    method OfficerLogoutHandler()
      modifies this`role
      ensures role == None
      ensures State() == Apply(old(State()), OfficerLogout)
      ensures RenderView(State()) == Landing
    {
      role := None;
    }
  }
}
