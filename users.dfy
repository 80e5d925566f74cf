/** Profile data: the interest, purchase and user records, the two seeded
    users and the case-insensitive lookup by email. */
module Users {
  import opened Wrappers
  import opened Text

  datatype InterestCategory =
    | Financial
    | Lifestyle
    | Shopping
    | Travel
    | Technology
    | Health
    | Entertainment

  datatype Interest = Interest(id: string, name: string, category: InterestCategory)

  datatype SocialMediaActivity = Low | Medium | High

  datatype PurchaseHistory = PurchaseHistory(
    id: string,
    productName: string,
    category: string,
    price: real,
    date: string)

  /** A profile. Every JavaScript `number` field is a `real`. */
  datatype User = User(
    id: string,
    firstName: string,
    lastName: string,
    email: string,
    age: real,
    gender: string,
    occupation: string,
    location: string,
    avatar: string,
    bio: string,
    phoneNumber: string,
    interests: seq<Interest>,
    purchaseHistory: seq<PurchaseHistory>,
    engagementScore: real,  // documented range 1-100
    sentimentScore: real,   // documented range 1-10
    socialMediaActivity: SocialMediaActivity)

  // The sample interests the seeded users refer to.
  const HomeLoan := Interest("homeLoan", "Home Loan", Financial)
  const RetirementSavings := Interest("retirementSavings", "Retirement Savings", Financial)
  const Etfs := Interest("etfs", "ETFs", Financial)
  const BudgetShopping := Interest("budgetShopping", "Budget Shopping", Shopping)
  const Dining := Interest("dining", "Dining", Lifestyle)
  const MortgagePayments := Interest("mortgagePayments", "Mortgage Payments", Financial)
  const Sports := Interest("sports", "Sports", Lifestyle)
  const TravelInterest := Interest("travel", "Travel", Travel)
  const Gadgets := Interest("gadgets", "Gadgets", Technology)
  const Discounts := Interest("discounts", "Discounts", Shopping)
  const NewArrivals := Interest("newArrivals", "New Arrivals", Shopping)
  const TravelCreditCards := Interest("travelCreditCards", "Travel Credit Cards", Financial)
  const Books := Interest("books", "Books", Lifestyle)
  const Meditation := Interest("meditation", "Meditation", Health)
  const Yoga := Interest("yoga", "Yoga", Health)

  const Isha := User(
    "1", "Isha", "Gupta", "isha@example.com", 23.0, "Female",
    "Software Engineer", "New York City", "/avatar-isha.jpg",
    "Software engineer with a passion for financial planning and sports.",
    "+1 (555) 123-4567",
    [HomeLoan, RetirementSavings, Etfs, BudgetShopping, Dining,
     MortgagePayments, Sports, TravelInterest, Gadgets],
    [PurchaseHistory("p1", "Financial Planning Book", "Books", 24.99, "2023-09-15"),
     PurchaseHistory("p2", "Running Shoes", "Sports", 129.99, "2023-10-02"),
     PurchaseHistory("p3", "Smart Watch", "Gadgets", 349.99, "2023-11-28")],
    78.0, 8.0, High)

  const Nikitha := User(
    "2", "Nikitha", "M", "nikitha@example.com", 32.0, "Female",
    "Manager", "San Francisco", "/avatar-nikitha.jpg",
    "Manager who enjoys finding great deals, reading, and wellness activities.",
    "+1 (555) 987-6543",
    [Discounts, NewArrivals, TravelCreditCards, Books, Meditation, Yoga],
    [PurchaseHistory("p4", "Yoga Mat", "Fitness", 65.99, "2023-08-22"),
     PurchaseHistory("p5", "Bestseller Novel", "Books", 19.99, "2023-09-08"),
     PurchaseHistory("p6", "Meditation App Subscription", "Digital", 79.99, "2023-12-01")],
    85.0, 9.0, Medium)

  /** The seeded `users` list, in order. */
  const SeedUsers: seq<User> := [Isha, Nikitha]

  /** The comparison `find` applies: emails equal after lower-casing both. */
  predicate EmailMatches(u: User, email: string) {
    Lower(u.email) == Lower(email)
  }

  /** `us.find(u => u.email.toLowerCase() === email.toLowerCase())`. */
  function FindByEmail(us: seq<User>, email: string): (r: Option<User>)
    ensures r.Some? ==> r.value in us && EmailMatches(r.value, email)
    ensures r.None? <==> forall u :: u in us ==> !EmailMatches(u, email)
  {
    if us == [] then None
    else if EmailMatches(us[0], email) then Some(us[0])
    else FindByEmail(us[1..], email)
  }

  /** `getUserByEmail`: the first seeded user whose email matches, ignoring case. */
  function GetUserByEmail(email: string): Option<User> {
    FindByEmail(SeedUsers, email)
  }

  /** `find` returns the FIRST match in list order. */
  lemma {:induction false} FindByEmailIsFirst(us: seq<User>, email: string)
    requires FindByEmail(us, email).Some?
    ensures exists i :: 0 <= i < |us| && us[i] == FindByEmail(us, email).value
                        && forall j :: 0 <= j < i ==> !EmailMatches(us[j], email)
  {
    if !EmailMatches(us[0], email) {
      FindByEmailIsFirst(us[1..], email);
      var i :| 0 <= i < |us[1..]| && us[1..][i] == FindByEmail(us[1..], email).value
               && forall j :: 0 <= j < i ==> !EmailMatches(us[1..][j], email);
      assert us[i + 1] == FindByEmail(us, email).value;
      assert forall j :: 0 <= j < i + 1 ==> !EmailMatches(us[j], email) by {
        forall j | 0 <= j < i + 1 ensures !EmailMatches(us[j], email) {
          if j > 0 { assert us[j] == us[1..][j - 1]; }
        }
      }
    } else {
      assert us[0] == FindByEmail(us, email).value;
    }
  }

  /** Queries that agree after lower-casing find the same user. */
  lemma {:induction false} FindByEmailIgnoresCase(us: seq<User>, e1: string, e2: string)
    requires Lower(e1) == Lower(e2)
    ensures FindByEmail(us, e1) == FindByEmail(us, e2)
  {
    if us != [] {
      FindByEmailIgnoresCase(us[1..], e1, e2);
    }
  }

  /** Looking up a lower-cased query is looking up the query itself. */
  lemma GetUserByEmailOfLowered(email: string)
    ensures GetUserByEmail(Lower(email)) == GetUserByEmail(email)
  {
    FindByEmailIgnoresCase(SeedUsers, Lower(email), email);
  }

  /** The seeded users lie in the documented score ranges. */
  lemma SeedScoresInRange()
    ensures forall u :: u in SeedUsers ==>
      1.0 <= u.engagementScore <= 100.0 && 1.0 <= u.sentimentScore <= 10.0
  {
  }

  /** The seeded emails differ even after lower-casing. */
  lemma SeedEmailsDistinct()
    ensures Lower(Isha.email) != Lower(Nikitha.email)
  {
    assert Lower(Isha.email)[0] == 'i';
  }

  /** `find` returns the element at the first index that matches. */
  lemma {:induction false} FindByEmailAt(us: seq<User>, email: string, k: nat)
    requires k < |us| && EmailMatches(us[k], email)
    requires forall j :: 0 <= j < k ==> !EmailMatches(us[j], email)
    ensures FindByEmail(us, email) == Some(us[k])
  {
    if k > 0 {
      FindByEmailAt(us[1..], email, k - 1);
    }
  }

  /** So looking up any seeded user's email finds exactly that user. */
  lemma GetUserByEmailFindsSeed(k: nat)
    requires k < |SeedUsers|
    ensures GetUserByEmail(SeedUsers[k].email) == Some(SeedUsers[k])
  {
    if k == 0 {
      assert SeedUsers[k] == Isha;
      FindByEmailAt(SeedUsers, Isha.email, 0);
    } else {
      assert SeedUsers[k] == Nikitha;
      SeedEmailsDistinct();
      FindByEmailAt(SeedUsers, Nikitha.email, 1);
    }
  }
}
