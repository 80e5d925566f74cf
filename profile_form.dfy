/** The profile form: the schema its values must satisfy, the interest
    catalogue it offers, and the conversion of the ticked interest ids into
    catalogue records for the profile update. */
module ProfileForm {
  import opened Wrappers
  import opened Users
  import AuthContext

  /** The values the form hands to its validator. */
  datatype ProfileFormValues = ProfileFormValues(
    firstName: string,
    lastName: string,
    email: string,
    phoneNumber: Option<string>,
    bio: string,
    age: real,
    gender: Option<string>,
    occupation: string,
    location: string,
    interests: seq<string>,
    socialMediaActivity: string)

  /** The validated fields. */
  datatype Field = FirstName | LastName | Email | Bio | Age | Occupation | Location | Activity

  /** A validation failure: the field and the message shown under it. */
  datatype Issue = Issue(path: Field, message: string)

  /** `z.enum(["low", "medium", "high"])` */
  function ParseActivity(s: string): (r: Option<SocialMediaActivity>)
    ensures r.Some? <==> s in {"low", "medium", "high"}
  {
    if s == "low" then Some(Low)
    else if s == "medium" then Some(Medium)
    else if s == "high" then Some(High)
    else None
  }

  /** The fields named by a list of issues. */
  function IssuePaths(issues: seq<Issue>): set<Field> {
    if issues == [] then {} else {issues[0].path} + IssuePaths(issues[1..])
  }

  lemma {:induction false} IssuePathsAppend(a: seq<Issue>, b: seq<Issue>)
    ensures IssuePaths(a + b) == IssuePaths(a) + IssuePaths(b)
  {
    if a != [] {
      IssuePathsAppend(a[1..], b);
      assert (a + b)[1..] == a[1..] + b;
    } else {
      assert a + b == b;
    }
  }

  // The messages the schema attaches to each constraint.
  const FirstNameMessage := "First name must be at least 2 characters."
  const LastNameMessage := "Last name must be at least 1 character."
  const EmailMessage := "Please enter a valid email address."
  const BioMessage := "Bio must not be longer than 160 characters."
  const MinAgeMessage := "You must be at least 18 years old."
  const MaxAgeMessage := "Age must be less than 120."
  const OccupationMessage := "Please enter your occupation."
  const LocationMessage := "Please enter your location."
  const ActivityMessage := "Invalid enum value. Expected 'low' | 'medium' | 'high'"

  /** One refinement of the schema: whether the value passes it, the field it
      guards and the message shown when it fails. */
  datatype Constraint = Constraint(holds: bool, path: Field, message: string)

  /** `profileFormSchema`, refinement by refinement in declaration order. The
      email format test belongs to the validation library and enters as
      `emailIsValid`; the optional phone number, gender and interests carry
      no refinement. */
  function Constraints(v: ProfileFormValues, emailIsValid: bool): seq<Constraint> {
    [ Constraint(|v.firstName| >= 2, FirstName, FirstNameMessage),
      Constraint(|v.lastName| >= 1, LastName, LastNameMessage),
      Constraint(emailIsValid, Email, EmailMessage),
      Constraint(|v.bio| <= 160, Bio, BioMessage),
      Constraint(v.age >= 18.0, Age, MinAgeMessage),
      Constraint(v.age <= 120.0, Age, MaxAgeMessage),
      Constraint(|v.occupation| >= 1, Occupation, OccupationMessage),
      Constraint(|v.location| >= 1, Location, LocationMessage),
      Constraint(ParseActivity(v.socialMediaActivity).Some?, Activity, ActivityMessage) ]
  }

  /** The issues of the refinements that fail, in order. */
  function Failures(cs: seq<Constraint>): (r: seq<Issue>)
    ensures |r| <= |cs|
  {
    if cs == [] then []
    else (if cs[0].holds then [] else [Issue(cs[0].path, cs[0].message)]) + Failures(cs[1..])
  }

  /** Nothing fails exactly when every refinement holds. */
  lemma {:induction false} FailuresEmpty(cs: seq<Constraint>)
    ensures Failures(cs) == [] <==> forall i :: 0 <= i < |cs| ==> cs[i].holds
  {
    if cs != [] {
      FailuresEmpty(cs[1..]);
      if cs[0].holds && Failures(cs[1..]) == [] {
        forall i | 0 <= i < |cs| ensures cs[i].holds {
          if i > 0 { assert cs[i] == cs[1..][i - 1]; }
        }
      }
    }
  }

  /** A field is flagged exactly when some refinement guarding it fails. */
  lemma {:induction false} FailuresFlag(cs: seq<Constraint>, f: Field)
    ensures f in IssuePaths(Failures(cs)) <==> exists i :: 0 <= i < |cs| && !cs[i].holds && cs[i].path == f
  {
    if cs != [] {
      FailuresFlag(cs[1..], f);
      var head := if cs[0].holds then [] else [Issue(cs[0].path, cs[0].message)];
      IssuePathsAppend(head, Failures(cs[1..]));
      assert IssuePaths([Issue(cs[0].path, cs[0].message)]) == {cs[0].path};
      if f in IssuePaths(Failures(cs[1..])) {
        var i :| 0 <= i < |cs[1..]| && !cs[1..][i].holds && cs[1..][i].path == f;
        assert cs[i + 1] == cs[1..][i];
      }
      if exists i :: 0 <= i < |cs| && !cs[i].holds && cs[i].path == f {
        var i :| 0 <= i < |cs| && !cs[i].holds && cs[i].path == f;
        if i > 0 { assert cs[1..][i - 1] == cs[i]; }
      }
    }
  }

  /** `profileFormSchema.safeParse`: every failed refinement, in schema order. */
  function Validate(v: ProfileFormValues, emailIsValid: bool): seq<Issue> {
    Failures(Constraints(v, emailIsValid))
  }

  /** The constraints the schema stands for, stated field by field. */
  ghost predicate Acceptable(v: ProfileFormValues, emailIsValid: bool) {
    && 2 <= |v.firstName|
    && 1 <= |v.lastName|
    && emailIsValid
    && |v.bio| <= 160
    && 18.0 <= v.age <= 120.0
    && v.occupation != []
    && v.location != []
    && v.socialMediaActivity in {"low", "medium", "high"}
  }

  /** The form is accepted exactly when every constraint holds. */
  lemma ValidateAcceptsIff(v: ProfileFormValues, emailIsValid: bool)
    ensures Validate(v, emailIsValid) == [] <==> Acceptable(v, emailIsValid)
  {
    var cs := Constraints(v, emailIsValid);
    FailuresEmpty(cs);
    if !Acceptable(v, emailIsValid) {
      var i := if |v.firstName| < 2 then 0 else if |v.lastName| < 1 then 1 else if !emailIsValid then 2
               else if |v.bio| > 160 then 3 else if v.age < 18.0 then 4 else if v.age > 120.0 then 5
               else if |v.occupation| < 1 then 6 else if |v.location| < 1 then 7 else 8;
      assert !cs[i].holds;
    }
  }

  /** The constraint the schema puts on each field. */
  predicate FieldValid(v: ProfileFormValues, emailIsValid: bool, f: Field) {
    match f
    case FirstName => |v.firstName| >= 2
    case LastName => |v.lastName| >= 1
    case Email => emailIsValid
    case Bio => |v.bio| <= 160
    case Age => 18.0 <= v.age <= 120.0
    case Occupation => |v.occupation| >= 1
    case Location => |v.location| >= 1
    case Activity => ParseActivity(v.socialMediaActivity).Some?
  }

  /** A field is flagged exactly when it breaks its own constraint: the age
      outside 18 to 120 inclusive, a first name shorter than 2, an activity
      other than low, medium or high, and so on for each field. */
  lemma ValidateFlagsExactly(v: ProfileFormValues, emailIsValid: bool, f: Field)
    ensures f in IssuePaths(Validate(v, emailIsValid)) <==> !FieldValid(v, emailIsValid, f)
  {
    var cs := Constraints(v, emailIsValid);
    FailuresFlag(cs, f);
    if !FieldValid(v, emailIsValid, f) {
      var i := match f
        case FirstName => 0
        case LastName => 1
        case Email => 2
        case Bio => 3
        case Age => if v.age >= 18.0 then 5 else 4
        case Occupation => 6
        case Location => 7
        case Activity => 8;
      assert !cs[i].holds && cs[i].path == f;
    }
  }

  // ---------------------------------------------------------------------
  // The interest catalogue and the id -> Interest conversion
  // ---------------------------------------------------------------------

  /** `allInterests`, as (key, entry) pairs in insertion order, which is the
      order `Object.values` lists them in. The entries equal the sample
      interests of the user data. */
  const AllInterests: seq<(string, Interest)> := [
    ("homeLoan", HomeLoan),
    ("retirementSavings", RetirementSavings),
    ("etfs", Etfs),
    ("budgetShopping", BudgetShopping),
    ("dining", Dining),
    ("mortgagePayments", MortgagePayments),
    ("sports", Sports),
    ("travel", TravelInterest),
    ("gadgets", Gadgets),
    ("discounts", Discounts),
    ("newArrivals", NewArrivals),
    ("travelCreditCards", TravelCreditCards),
    ("books", Books),
    ("meditation", Meditation),
    ("yoga", Yoga)
  ]

  /** Every catalogue key is its entry's id. */
  lemma CatalogueKeysAreIds()
    ensures forall k :: 0 <= k < |AllInterests| ==> AllInterests[k].0 == AllInterests[k].1.id
  {
  }

  /** `Object.values(allInterests)` */
  function CatalogueValues(): (r: seq<Interest>)
    ensures |r| == |AllInterests|
    ensures forall k :: 0 <= k < |r| ==> r[k] == AllInterests[k].1
  {
    seq(|AllInterests|, k requires 0 <= k < |AllInterests| => AllInterests[k].1)
  }

  /** `catalogue.find(interest => interest.id === id)` */
  function FindById(catalogue: seq<Interest>, id: string): (r: Option<Interest>)
    ensures r.Some? ==> r.value in catalogue && r.value.id == id
    ensures r.None? <==> forall x :: x in catalogue ==> x.id != id
  {
    if catalogue == [] then None
    else if catalogue[0].id == id then Some(catalogue[0])
    else FindById(catalogue[1..], id)
  }

  /** `ids.map(id => find(...))` */
  function LookUpAll(catalogue: seq<Interest>, ids: seq<string>): (r: seq<Option<Interest>>)
    ensures |r| == |ids|
  {
    if ids == [] then [] else [FindById(catalogue, ids[0])] + LookUpAll(catalogue, ids[1..])
  }

  /** `.filter(Boolean)`: drop the ids that found nothing. */
  function Present(found: seq<Option<Interest>>): (r: seq<Interest>)
    ensures |r| <= |found|
  {
    if found == [] then []
    else (if found[0].Some? then [found[0].value] else []) + Present(found[1..])
  }

  /** The input ids that name some catalogue entry, in input order. */
  function KnownIds(catalogue: seq<Interest>, ids: seq<string>): seq<string> {
    if ids == [] then []
    else (if exists x :: x in catalogue && x.id == ids[0] then [ids[0]] else []) + KnownIds(catalogue, ids[1..])
  }

  function IdsOf(interests: seq<Interest>): (r: seq<string>)
    ensures |r| == |interests|
  {
    if interests == [] then [] else [interests[0].id] + IdsOf(interests[1..])
  }

  /** The conversion keeps input order, drops unknown ids, and turns each
      known id into a catalogue entry with that id. */
  lemma {:induction false} ConvertKeepsKnownIds(catalogue: seq<Interest>, ids: seq<string>)
    ensures IdsOf(Present(LookUpAll(catalogue, ids))) == KnownIds(catalogue, ids)
    ensures forall x :: x in Present(LookUpAll(catalogue, ids)) ==> x in catalogue
  {
    if ids != [] {
      ConvertKeepsKnownIds(catalogue, ids[1..]);
      var found := LookUpAll(catalogue, ids);
      assert found[1..] == LookUpAll(catalogue, ids[1..]);
      var rest := Present(found[1..]);
      if found[0].Some? {
        assert Present(found) == [found[0].value] + rest;
        assert IdsOf([found[0].value] + rest)[1..] == IdsOf(rest);
      } else {
        assert Present(found) == rest;
      }
    }
  }

  /** The conversion `onSubmit` applies to the ticked interest ids. */
  function ConvertInterests(ids: seq<string>): (r: seq<Interest>)
    ensures |r| <= |ids|
    ensures forall x :: x in r ==> x in CatalogueValues()
    ensures IdsOf(r) == KnownIds(CatalogueValues(), ids)
  {
    ConvertKeepsKnownIds(CatalogueValues(), ids);
    Present(LookUpAll(CatalogueValues(), ids))
  }

  /** The update `onSubmit` passes to `updateUserProfile`: the form's fields,
      with the interests converted. Submission happens only after the schema
      accepted the values, so the activity is one of the three known ones. */
  function SubmissionPatch(data: ProfileFormValues): (patch: AuthContext.UserPatch)
    requires ParseActivity(data.socialMediaActivity).Some?
    ensures patch.interests.Some? && forall x :: x in patch.interests.value ==> x in CatalogueValues()
    ensures patch.purchaseHistory.None? && patch.engagementScore.None? && patch.sentimentScore.None?
    ensures patch.id.None? && patch.avatar.None?
  {
    AuthContext.UserPatch(
      None,
      Some(data.firstName),
      Some(data.lastName),
      Some(data.email),
      Some(data.age),
      data.gender,
      Some(data.occupation),
      Some(data.location),
      None,
      Some(data.bio),
      data.phoneNumber,
      Some(ConvertInterests(data.interests)),
      None,
      None,
      None,
      Some(ParseActivity(data.socialMediaActivity).value))
  }

  /** Saving the form never touches what the scorer reads from the purchase
      history, the engagement and the sentiment, and leaves only catalogue
      interests on the profile. */
  lemma SubmissionKeepsScoringInputs(user: User, data: ProfileFormValues)
    requires ParseActivity(data.socialMediaActivity).Some?
    ensures var updated := AuthContext.Merge(user, SubmissionPatch(data));
            && updated.purchaseHistory == user.purchaseHistory
            && updated.engagementScore == user.engagementScore
            && updated.sentimentScore == user.sentimentScore
            && updated.id == user.id
            && updated.age == data.age
            && forall x :: x in updated.interests ==> x in CatalogueValues()
  {
  }
}
