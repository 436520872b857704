/** The in-memory collections the dashboard works on: the user list
    (`usersDb`) and each client's assessment history (`assessmentsDb`, keyed
    by email). Loading from and saving to local storage are not modelled;
    the clock, the record id and the form values are parameters. */
module Store {

  import opened Questionnaire
  import opened Assessment
  import opened AssessmentGate
  import opened JsText

  const ROLE_ADMIN: string := "admin"
  const ROLE_NUTRITIONIST: string := "nutricionista"
  const ROLE_CLIENT: string := "cliente"

  datatype User = User(
    name: string,
    email: string,
    birthdate: string,
    address: string,
    password: string,
    role: string,
    createdAt: string,
    preferences: seq<string>
  )

  /** The two accounts created when no user has been stored yet. */
  function SeedUsers(createdAt: string): (users: seq<User>)
    ensures |users| == 2 && users[0].role == ROLE_ADMIN && users[1].role == ROLE_NUTRITIONIST
    ensures UniqueEmails(users)
  {
    [ User("Admin", "admin@email.com", "1990-01-01", "N/A", "AdminNexa", ROLE_ADMIN, createdAt, []),
      User("Dr(a). Nutricionista", "nutricionista@email.com", "1992-05-10", "N/A", "NutriNexa",
           ROLE_NUTRITIONIST, createdAt, []) ]
  }

  /** `usersDb.some(u => u.email === email)` */
  predicate EmailTaken(users: seq<User>, email: string) {
    exists i :: 0 <= i < |users| && users[i].email == email
  }

  predicate UniqueEmails(users: seq<User>) {
    forall i, j :: 0 <= i < j < |users| ==> users[i].email != users[j].email
  }

  /** Appending a user whose email is not taken keeps emails unique. */
  lemma AppendFreshEmailKeepsUnique(users: seq<User>, u: User)
    requires UniqueEmails(users) && !EmailTaken(users, u.email)
    ensures UniqueEmails(users + [u])
  {
    forall i, j | 0 <= i < j < |users| + 1
      ensures (users + [u])[i].email != (users + [u])[j].email
    {
      if j == |users| {
        assert (users + [u])[i] == users[i];
      }
    }
  }

  /** What a submission attempt produces. */
  datatype Submission = Accepted(record: Assessment) | Rejected(waitDays: nat)

  class Database {
    var users: seq<User>
    var assessments: map<string, seq<Assessment>>

    /** `loadDb`: the stored collections, with the two seed accounts when no
        user was stored. */
    constructor Load(storedUsers: seq<User>, storedAssessments: map<string, seq<Assessment>>, now: string)
      ensures users == if storedUsers == [] then SeedUsers(now) else storedUsers
      ensures assessments == storedAssessments
    {
      users := if storedUsers == [] then SeedUsers(now) else storedUsers;
      assessments := storedAssessments;
    }

    /** `assessmentsDb[email] || []` */
    function History(email: string): (h: seq<Assessment>)
      reads this
      ensures email !in assessments ==> h == []
    {
      if email in assessments then assessments[email] else []
    }

    /** `handleRegister`: rejects an email (after trimming) that is already
        registered, otherwise appends one client account. */
    method Register(rawEmail: string, name: string, birthdate: string, address: string,
                    password: string, createdAt: string, preferences: seq<string>)
      returns (ok: bool)
      modifies this
      ensures ok <==> !EmailTaken(old(users), Trim(rawEmail))
      ensures ok ==>
        users == old(users) + [User(name, Trim(rawEmail), birthdate, address, password, ROLE_CLIENT, createdAt, preferences)]
      ensures !ok ==> users == old(users)
      ensures UniqueEmails(old(users)) ==> UniqueEmails(users)
      ensures assessments == old(assessments)
    {
      var email := Trim(rawEmail);
      if EmailTaken(users, email) {
        return false;
      }
      var newUser := User(name, email, birthdate, address, password, ROLE_CLIENT, createdAt, preferences);
      if UniqueEmails(users) {
        AppendFreshEmailKeepsUnique(users, newUser);
      }
      users := users + [newUser];
      ok := true;
    }

    /** `checkAssessmentLock`, without its effect on the page: whether the
        client may submit at instant `now`, and the days to wait if not. */
    method CheckAssessmentLock(email: string, now: int) returns (allowed: bool, remaining: nat)
      ensures allowed <==> CheckEligibility(History(email), now).Eligible?
      ensures !allowed ==> remaining == CheckEligibility(History(email), now).waitDays
      ensures allowed ==> remaining == 0
    {
      var arrs := History(email);
      if |arrs| > 0 {
        var lastDate := arrs[|arrs| - 1].date;
        var diffDays := DiffDays(now, lastDate);
        if diffDays < 0 {
          return false, 0 - diffDays;
        }
      }
      return true, 0;
    }

    /** `handleAssessmentSubmit`: repeats the gate at instant `now`; when
        allowed, appends exactly one record, stamped `date`, to the client's
        history (creating it if absent) and touches nothing else. */
    method SubmitAssessment(email: string, answers: Answers, id: string, now: int, date: int)
      returns (result: Submission)
      modifies this
      ensures var gate := CheckEligibility(old(History(email)), now);
        if gate.Blocked? then
          result == Rejected(gate.waitDays) && assessments == old(assessments)
        else
          result == Accepted(Evaluate(id, date, answers))
          && assessments == old(assessments)[email := old(History(email)) + [result.record]]
      ensures result.Accepted? ==> History(email) == old(History(email)) + [result.record]
      ensures forall other :: other != email ==> History(other) == old(History(other))
      ensures users == old(users)
    {
      var arrs := History(email);
      if |arrs| > 0 {
        var lastDate := arrs[|arrs| - 1].date;
        var diffDays := DiffDays(now, lastDate);
        if diffDays < 0 {
          return Rejected(0 - diffDays);
        }
      }
      var record := Evaluate(id, date, answers);
      assessments := assessments[email := arrs + [record]];
      result := Accepted(record);
    }
  }

  /** The lock query and the submission apply the same rule: at the same
      instant, a submission is accepted exactly when the lock allows it, and
      a rejection reports the same wait. Right after an accepted submission
      dated no later than `now`, the lock allows again at that instant. */
  method LockAgreesWithSubmit(db: Database, email: string, answers: Answers, id: string, now: int, date: int)
    returns (allowed: bool, remaining: nat, result: Submission, allowedAfter: bool)
    modifies db
    ensures allowed <==> result.Accepted?
    ensures !allowed ==> result.waitDays == remaining && remaining >= 1
    ensures result.Accepted? && date <= now ==> allowedAfter
  {
    allowed, remaining := db.CheckAssessmentLock(email, now);
    result := db.SubmitAssessment(email, answers, id, now, date);
    if result.Accepted? && date <= now {
      NoCooldown(old(db.History(email)), result.record, now);
    }
    var remainingAfter;
    allowedAfter, remainingAfter := db.CheckAssessmentLock(email, now);
  }

}
