/** The three-step onboarding form (components/Onboarding.tsx): step 1 asks
    for the location, step 2 for the crop, step 3 for the growth stage; a voice
    transcript or the form control fills the current step's field. */
module Onboarding {
  import opened Types

  /** The profile the form starts with. */
  const InitialProfile: FarmerProfile :=
    FarmerProfile("", "Maharashtra", "Cotton", "Sowing", "2 Acres")

  /** The profile with the field that `step` asks for set to `v`; no other
      field changes, and a step outside 1..3 changes nothing. */
  function SetStepField(p: FarmerProfile, step: int, v: string): (r: FarmerProfile)
    ensures r.name == p.name && r.landSize == p.landSize
    ensures r.location == (if step == 1 then v else p.location)
    ensures r.crop == (if step == 2 then v else p.crop)
    ensures r.stage == (if step == 3 then v else p.stage)
  {
    if step == 1 then p.(location := v)
    else if step == 2 then p.(crop := v)
    else if step == 3 then p.(stage := v)
    else p
  }

  /** The transcript effect: an empty transcript changes nothing, any other
      overwrites the current step's field. */
  function ApplyTranscript(p: FarmerProfile, step: int, transcript: string): (r: FarmerProfile)
    ensures transcript == "" ==> r == p
    ensures transcript != "" ==> r == SetStepField(p, step, transcript)
  {
    if transcript != "" then SetStepField(p, step, transcript) else p
  }

  /** Progress dot i (1-based) is filled once the form has reached step i. */
  function ProgressDots(step: int): (dots: seq<bool>)
    ensures |dots| == 3
    ensures forall i :: 0 <= i < 3 ==> (dots[i] <==> step >= i + 1)
  {
    seq(3, i => step >= i + 1)
  }

  /** The number of true entries. */
  function CountFilled(dots: seq<bool>): nat
    decreases |dots|
  {
    if |dots| == 0 then 0 else (if dots[0] then 1 else 0) + CountFilled(dots[1..])
  }

  /** A filled dot only ever follows filled dots. */
  predicate FilledPrefix(dots: seq<bool>)
  {
    forall i, j :: 0 <= i < j < |dots| && dots[j] ==> dots[i]
  }

  /** On every step of the form, the filled dots are the first `step` ones. */
  lemma DotsShowStep(step: int)
    requires 1 <= step <= 3
    ensures FilledPrefix(ProgressDots(step))
    ensures CountFilled(ProgressDots(step)) == step
  {
    var d := ProgressDots(step);
    assert d[1..][1..][1..] == [];
    assert CountFilled(d[1..][1..]) == (if step >= 3 then 1 else 0);
  }

  class OnboardingForm {
    var step: int
    var language: Language
    var profile: FarmerProfile
    /** The last voice transcript, "" after a reset. */
    var transcript: string

    ghost predicate Valid()
      reads this
    {
      1 <= step <= 3
    }

    constructor ()
      ensures Valid()
      ensures step == 1 && language == English && profile == InitialProfile && transcript == ""
    {
      step := 1;
      language := English;
      profile := InitialProfile;
      transcript := "";
    }

    /** handleNext: clear the transcript, then advance, or at the last step
        hand the profile to the completion callback and stay. */
    method HandleNext() returns (completed: Option<FarmerProfile>)
      requires Valid()
      modifies this`step, this`transcript
      ensures Valid() && transcript == ""
      ensures old(step) < 3 ==> step == old(step) + 1 && completed == None
      ensures old(step) == 3 ==> step == 3 && completed == Some(profile)
    {
      transcript := "";
      if step < 3 {
        step := step + 1;
        completed := None;
      } else {
        completed := Some(profile);
      }
    }

    /** A recognition result arrives. React skips the re-render when the text
        is the one already held, so then the effect does not run again. */
    method ReceiveTranscript(text: string)
      requires Valid()
      modifies this`transcript, this`profile
      ensures Valid() && transcript == text
      ensures profile == if text != old(transcript) then ApplyTranscript(old(profile), step, text)
                         else old(profile)
    {
      if text != transcript {
        transcript := text;
        if transcript != "" {
          profile := SetStepField(profile, step, transcript);
        }
      }
    }

    /** The current step's input or select changes to `v`. */
    method EditField(v: string)
      requires Valid()
      modifies this`profile
      ensures Valid() && profile == SetStepField(old(profile), step, v)
    {
      if step == 1 {
        profile := profile.(location := v);
      } else if step == 2 {
        profile := profile.(crop := v);
      } else {
        profile := profile.(stage := v);
      }
    }

    /** A language button: only the voice language changes. */
    method SelectLanguage(l: Language)
      requires Valid()
      modifies this`language
      ensures Valid() && language == l
    {
      language := l;
    }
  }
}
