/** The mock account store: a list of registered accounts, the signed-in
    user, and the subscription plans with their lengths. */
module Auth {
  import opened Wrappers
  import Numerals

  datatype Plan = Free | Monthly | Quarterly | Yearly

  const MsPerDay: int := 24 * 60 * 60 * 1000

  /** How many days each plan runs. */
  function PlanDays(p: Plan): (days: nat)
    ensures days >= 10
  {
    match p
    case Free => 10
    case Monthly => 30
    case Quarterly => 90
    case Yearly => 365
  }

  function PlanRank(p: Plan): nat {
    match p
    case Free => 0
    case Monthly => 1
    case Quarterly => 2
    case Yearly => 3
  }

  /** A dearer plan runs strictly longer. */
  lemma LongerPlansRunLonger(p: Plan, q: Plan)
    requires PlanRank(p) < PlanRank(q)
    ensures PlanDays(p) < PlanDays(q)
  {
  }

  /** The end of a plan bought at `now`, both in milliseconds. */
  function PlanEnd(p: Plan, now: int): (end: int)
    ensures end - now >= 10 * MsPerDay
    ensures (end - now) % MsPerDay == 0 && (end - now) / MsPerDay == PlanDays(p)
  {
    now + PlanDays(p) * MsPerDay
  }

  /** A stored account, with its password. */
  datatype Account = Account(id: string, name: string, email: string, password: string,
                             subscription: Option<Plan>, endDate: Option<int>)

  /** The signed-in user as the rest of the app sees it: the account without
      its password. */
  datatype Profile = Profile(id: string, name: string, email: string,
                             subscription: Option<Plan>, endDate: Option<int>)

  function ProfileOf(a: Account): (p: Profile)
    ensures p.id == a.id && p.name == a.name && p.email == a.email
    ensures p.subscription == a.subscription && p.endDate == a.endDate
  {
    Profile(a.id, a.name, a.email, a.subscription, a.endDate)
  }

  const TestAccount: Account := Account("1", "Test User", "test@example.com", "password123", None, None)

  /** `Array.prototype.find`, by index: the first account that matches. */
  function FindFirst(accounts: seq<Account>, matches: Account -> bool): (r: Option<nat>)
    ensures r.Some? ==> r.value < |accounts| && matches(accounts[r.value])
                        && forall j :: 0 <= j < r.value ==> !matches(accounts[j])
    ensures r.None? <==> forall j :: 0 <= j < |accounts| ==> !matches(accounts[j])
  {
    if accounts == [] then None
    else if matches(accounts[0]) then Some(0)
    else
      var rest := FindFirst(accounts[1..], matches);
      if rest.Some? then Some(rest.value + 1) else None
  }

  function HasEmail(email: string): Account -> bool {
    (a: Account) => a.email == email
  }

  function HasCredentials(email: string, password: string): Account -> bool {
    (a: Account) => a.email == email && a.password == password
  }

  /** Ids are the positions counted from 1, printed in decimal. */
  ghost predicate NumberedFromOne(accounts: seq<Account>) {
    forall i :: 0 <= i < |accounts| ==> accounts[i].id == Numerals.NatToString(i + 1)
  }

  ghost predicate EmailsDistinct(accounts: seq<Account>) {
    forall i, j :: 0 <= i < j < |accounts| ==> accounts[i].email != accounts[j].email
  }

  /** Numbering accounts by position gives every account its own id. */
  lemma IdsAreDistinct(accounts: seq<Account>)
    requires NumberedFromOne(accounts)
    ensures forall i, j :: 0 <= i < j < |accounts| ==> accounts[i].id != accounts[j].id
  {
    forall i, j | 0 <= i < j < |accounts|
      ensures accounts[i].id != accounts[j].id
    {
      if accounts[i].id == accounts[j].id {
        Numerals.NatToStringInjective(i + 1, j + 1);
      }
    }
  }

  /** An account added under a new email is the one a login with its
      credentials finds. */
  lemma NewAccountIsFound(accounts: seq<Account>, a: Account)
    requires forall j :: 0 <= j < |accounts| ==> accounts[j].email != a.email
    ensures FindFirst(accounts + [a], HasCredentials(a.email, a.password)) == Some(|accounts|)
    ensures FindFirst(accounts + [a], HasEmail(a.email)) == Some(|accounts|)
  {
    var s := accounts + [a];
    var creds := HasCredentials(a.email, a.password);
    var byEmail := HasEmail(a.email);
    assert creds(s[|accounts|]) && byEmail(s[|accounts|]);
    assert forall j :: 0 <= j < |accounts| ==> s[j] == accounts[j] && !creds(s[j]) && !byEmail(s[j]);
    var r1 := FindFirst(s, creds);
    assert r1.Some?;
    assert r1.value == |accounts|;
    var r2 := FindFirst(s, byEmail);
    assert r2.Some?;
    assert r2.value == |accounts|;
  }

  class AuthService {
    /** The registered accounts; signing up appends to this list. */
    var accounts: seq<Account>
    var user: Option<Profile>

    ghost predicate Valid()
      reads this
    {
      |accounts| >= 1 && NumberedFromOne(accounts) && EmailsDistinct(accounts)
    }

    constructor ()
      ensures Valid() && accounts == [TestAccount] && user == None
    {
      accounts := [TestAccount];
      user := None;
      assert Numerals.NatToString(1) == [Numerals.DigitChar(1)];
    }

    function IsAuthenticated(): bool
      reads this
    {
      user.Some?
    }

    /** Registers a new account on the free plan and signs it in; an email
        already registered is refused. */
    method Signup(name: string, email: string, password: string, now: int) returns (r: Result<()>)
      requires Valid()
      modifies this
      ensures Valid()
      ensures FindFirst(old(accounts), HasEmail(email)).Some? ==>
                r == Failure("Email already exists") && accounts == old(accounts) && user == old(user)
      ensures FindFirst(old(accounts), HasEmail(email)).None? ==>
                var created := Account(Numerals.NatToString(|old(accounts)| + 1), name, email, password,
                                       Some(Free), Some(PlanEnd(Free, now)));
                r.Success? && accounts == old(accounts) + [created] && user == Some(ProfileOf(created))
    {
      var existingUser := FindFirst(accounts, HasEmail(email));
      if existingUser.Some? {
        return Failure("Email already exists");
      }
      var newUser := Profile(Numerals.NatToString(|accounts| + 1), name, email, Some(Free), Some(now + 10 * MsPerDay));
      accounts := accounts + [Account(newUser.id, name, email, password, newUser.subscription, newUser.endDate)];
      user := Some(newUser);
      r := Success(());
    }

    /** Signs in the first account with this email and password. */
    method Login(email: string, password: string) returns (r: Result<()>)
      modifies this
      ensures accounts == old(accounts)
      ensures FindFirst(accounts, HasCredentials(email, password)).Some? ==>
                r.Success? && user == Some(ProfileOf(accounts[FindFirst(accounts, HasCredentials(email, password)).value]))
      ensures FindFirst(accounts, HasCredentials(email, password)).None? ==>
                r == Failure("Invalid email or password") && user == old(user)
    {
      var foundUser := FindFirst(accounts, HasCredentials(email, password));
      if foundUser.None? {
        return Failure("Invalid email or password");
      }
      var a := accounts[foundUser.value];
      user := Some(Profile(a.id, a.name, a.email, a.subscription, a.endDate));
      r := Success(());
    }

    method Logout()
      modifies this
      ensures user == None && accounts == old(accounts)
    {
      user := None;
    }

    /** Changes the signed-in user's plan and end date; the stored account is
        left as it was. */
    method UpdateSubscription(plan: Plan, now: int)
      modifies this
      ensures accounts == old(accounts)
      ensures old(user).None? ==> user == None
      ensures old(user).Some? ==>
                user == Some(old(user).value.(subscription := Some(plan), endDate := Some(PlanEnd(plan, now))))
    {
      if user.None? {
        return;
      }
      var endDate: int;
      match plan {
        case Free => endDate := now + 10 * MsPerDay;
        case Monthly => endDate := now + 30 * MsPerDay;
        case Quarterly => endDate := now + 90 * MsPerDay;
        case Yearly => endDate := now + 365 * MsPerDay;
      }
      user := Some(user.value.(subscription := Some(plan), endDate := Some(endDate)));
    }
  }

  /** After a successful sign-up, signing out and back in with the same email
      and password signs in the new account. */
  method SignupThenLogin(auth: AuthService, name: string, email: string, password: string, now: int)
    returns (signedUp: Result<()>, loggedIn: Result<()>)
    requires auth.Valid()
    modifies auth
    ensures signedUp.Success? ==>
              (loggedIn.Success? && auth.user.Some?
               && auth.user.value.id == Numerals.NatToString(|old(auth.accounts)| + 1)
               && auth.user.value.subscription == Some(Free))
  {
    signedUp := auth.Signup(name, email, password, now);
    auth.Logout();
    if signedUp.Success? {
      NewAccountIsFound(old(auth.accounts), auth.accounts[|auth.accounts| - 1]);
    }
    loggedIn := auth.Login(email, password);
  }
}
