/**
 * The profile form of the information page: ten text fields edited one at a
 * time, the age field guarded by a digit-and-range test and stepped by two
 * arrow buttons, and the submit that merges the form into the signed-in user.
 */
module UserInfoPage {
  import opened Wrappers
  import opened Text
  import opened Types

  /** The `name` attribute of the form's inputs. */
  datatype Field =
    | Age | Gender | Goals | Fears | Personality
    | Philosophy | Hobbies | RoleModels | PastExperiences | UpcomingEvents

  /** The form's initial state: every field empty except the tone, preset to "motivational". */
  const InitialProfile := Profile("", "", "", "", "motivational", "", "", "", "", "")

  /** `formData[name]`. */
  function Get(p: Profile, f: Field): string {
    match f
    case Age => p.age
    case Gender => p.gender
    case Goals => p.goals
    case Fears => p.fears
    case Personality => p.personality
    case Philosophy => p.philosophy
    case Hobbies => p.hobbies
    case RoleModels => p.roleModels
    case PastExperiences => p.pastExperiences
    case UpcomingEvents => p.upcomingEvents
  }

  /** `{ ...p, [name]: value }`: the named field is `value` and every other field keeps its value. */
  function With(p: Profile, f: Field, value: string): (r: Profile)
    ensures forall g :: Get(r, g) == if g == f then value else Get(p, g)
  {
    match f
    case Age => p.(age := value)
    case Gender => p.(gender := value)
    case Goals => p.(goals := value)
    case Fears => p.(fears := value)
    case Personality => p.(personality := value)
    case Philosophy => p.(philosophy := value)
    case Hobbies => p.(hobbies := value)
    case RoleModels => p.(roleModels := value)
    case PastExperiences => p.(pastExperiences := value)
    case UpcomingEvents => p.(upcomingEvents := value)
  }

  /** The test an age edit must pass: empty, or `^\d+$` with `parseInt` between 1 and 150. */
  predicate AgeAcceptable(value: string) {
    value == ""
    || (value != [] && AllDigits(value)
        && ParseInt(value).Some? && 1 <= ParseInt(value).value <= 150)
  }

  /** The test in plain terms: empty, or a non-empty run of digits whose decimal value is
      between 1 and 150, leading zeros allowed. */
  lemma AgeAcceptableIff(value: string)
    ensures AgeAcceptable(value) <==>
      value == "" || (value != [] && AllDigits(value) && 1 <= DecimalValue(value) <= 150)
  {
    if value != [] && AllDigits(value) {
      ParseIntDigits(value);
    }
  }

  /** An accepted age is kept as typed: "007" passes and is stored as "007", not "7". */
  lemma LeadingZerosAccepted()
    ensures AgeAcceptable("007")
  {
    var s := "007";
    assert AllDigits(s);
    assert DecimalValue("0") == 0 by { assert "0"[..0] == []; }
    assert DecimalValue("00") == 0 by { assert "00"[..1] == "0"; }
    assert DecimalValue(s) == 7 by { assert s[..2] == "00"; }
    AgeAcceptableIff(s);
  }

  /** `parseInt(age, 10) || 0`: NaN and zero both give zero. */
  function CurrentAge(age: string): (r: int)
    ensures ParseInt(age).None? ==> r == 0
    ensures ParseInt(age).Some? ==> r == ParseInt(age).value
  {
    var parsed := ParseInt(age);
    if parsed.Some? && parsed.value != 0 then parsed.value else 0
  }

  /** The range the arrows keep the age in. */
  function ClampAge(x: int): (r: nat)
    ensures 1 <= r <= 150
    ensures 1 <= x <= 150 ==> r == x
    ensures x < 1 ==> r == 1
    ensures x > 150 ==> r == 150
  {
    if x < 1 then 1 else if x > 150 then 150 else x
  }

  /** Whatever the arrows write is an age the edit test accepts. */
  lemma ArrowAgeAcceptable(x: int)
    ensures AgeAcceptable(Show(ClampAge(x)))
  {
    var n := ClampAge(x);
    ShowRoundTrip(n);
    AgeAcceptableIff(Show(n));
  }

  class ProfileForm {
    var formData: Profile

    constructor ()
      ensures formData == InitialProfile
    {
      formData := InitialProfile;
    }

    /** `handleChange`: an age edit is stored only when it passes the test, any other
        field is stored verbatim. */
    method HandleChange(name: Field, value: string)
      modifies this`formData
      ensures name == Age && !AgeAcceptable(value) ==> formData == old(formData)
      ensures name != Age || AgeAcceptable(value) ==> formData == With(old(formData), name, value)
    {
      if name == Age {
        if value == "" || (value != [] && AllDigits(value) && ParseInt(value).Some?
                           && ParseInt(value).value >= 1 && ParseInt(value).value <= 150) {
          formData := With(formData, name, value);
        }
        return;
      }
      formData := With(formData, name, value);
    }

    /** `handleAgeArrowClick`: the current age (zero when unreadable) plus the step,
        clamped to [1, 150] and written back as its decimal string; nothing else changes. */
    method HandleAgeArrowClick(increment: int)
      modifies this`formData
      ensures formData.age == Show(ClampAge(CurrentAge(old(formData).age) + increment))
      ensures AgeAcceptable(formData.age)
      ensures forall f :: f != Age ==> Get(formData, f) == Get(old(formData), f)
    {
      var parsed := ParseInt(formData.age);
      var currentAge := if parsed.Some? && parsed.value != 0 then parsed.value else 0;
      var newAge := currentAge + increment;
      if newAge < 1 {
        newAge := 1;
      }
      if newAge > 150 {
        newAge := 150;
      }
      ArrowAgeAcceptable(currentAge + increment);
      formData := With(formData, Age, Show(newAge));
    }

    /** `handleSubmit`: the signed-in user's name and e-mail with the whole form. */
    method HandleSubmit(name: string, email: string) returns (user: UserData)
      ensures user.name == name && user.email == email
      ensures user.profile.Some? && forall f :: Get(user.profile.value, f) == Get(formData, f)
    {
      user := UserData(name, email, Some(formData));
    }
  }
}
