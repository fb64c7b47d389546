/**
 * The records of accounts/models.py: the user, its address, the role choices,
 * the pincode rule and column widths, and the `__str__` forms.
 */
module Models {
  import opened Wrappers
  import opened Text

  /** Django's auto-increment primary key of the users table. */
  type UserId = nat

  /** A row of the users table. `passwordHash` is the opaque output of Django's password hasher;
      timestamps and the other AbstractUser columns are not modelled. */
  datatype User = User(
    id: UserId,
    username: string,
    email: string,
    firstName: string,
    lastName: string,
    userType: string,
    isActive: bool,
    passwordHash: string,
    profilePicture: Option<string>)

  /** A row of the addresses table; the owning user is the key under which the store keeps it. */
  datatype Address = Address(line1: string, city: string, state: string, pincode: string)

  /** `USER_TYPE_CHOICES`: stored value and display label. */
  const UserTypeChoices: seq<(string, string)> := [("patient", "Patient"), ("doctor", "Doctor")]

  const UserTypeMaxLength := 10
  const Line1MaxLength := 255
  const CityMaxLength := 100
  const StateMaxLength := 100
  const PincodeMaxLength := 10

  const PincodeMessage := "Pincode must be 5-10 digits"

  /** `t` is one of the stored values of `USER_TYPE_CHOICES`. */
  predicate IsUserType(t: string) {
    exists choice :: choice in UserTypeChoices && choice.0 == t
  }

  /** The role values are exactly "patient" and "doctor", and both fit the `max_length=10` column. */
  lemma UserTypeChoicesAre(t: string)
    ensures IsUserType(t) <==> t == "patient" || t == "doctor"
    ensures IsUserType(t) ==> |t| <= UserTypeMaxLength
  {
    if t == "patient" {
      assert UserTypeChoices[0] in UserTypeChoices;
    } else if t == "doctor" {
      assert UserTypeChoices[1] in UserTypeChoices;
    }
  }

  /** The pincode `RegexValidator` `^\d{5,10}$`, with ASCII digits. Every pincode it accepts
      fits the `max_length=10` column. */
  predicate MatchesPincodePattern(p: string): (b: bool)
    ensures b ==> 5 <= |p| <= PincodeMaxLength && forall i :: 0 <= i < |p| ==> '0' <= p[i] <= '9'
    ensures !b && 5 <= |p| <= 10 ==> exists i :: 0 <= i < |p| && !('0' <= p[i] <= '9')
  {
    5 <= |p| <= 10 && AllDigits(p)
  }

  /** Four lengths at the edges of the rule: 4 and 12 digits are refused, 5 and 10 accepted,
      and a digit string with a letter in it is refused. */
  lemma PincodeExamples()
    ensures !MatchesPincodePattern("1234")
    ensures MatchesPincodePattern("12345")
    ensures MatchesPincodePattern("1234567890")
    ensures !MatchesPincodePattern("123456789012")
    ensures !MatchesPincodePattern("12a45")
  {
    assert !IsAsciiDigit("12a45"[2]);
  }

  /** `User.__str__`: the username, then the role in parentheses. */
  function UserStr(u: User): (s: string)
    ensures var n := |u.username|;
            && |s| == n + |u.userType| + 3
            && s[..n] == u.username && s[n..n + 2] == " (" && s[n + 2..|s| - 1] == u.userType && s[|s| - 1] == ')'
  {
    u.username + " (" + u.userType + ")"
  }

  /** `Address.__str__`: starts with line1 and ends with " - " and the pincode. */
  function AddressStr(a: Address): (s: string)
    ensures |s| == |a.line1| + |a.city| + |a.state| + |a.pincode| + 7
    ensures StartsWith(s, a.line1) && s[|a.line1|..|a.line1| + 2] == ", "
    ensures s[|s| - |a.pincode|..] == a.pincode && s[|s| - |a.pincode| - 3..|s| - |a.pincode|] == " - "
  {
    a.line1 + ", " + a.city + ", " + a.state + " - " + a.pincode
  }

  /** `Patient.__str__`, given the username of the owning user. */
  function PatientStr(username: string): (s: string)
    ensures |s| == |username| + 9 && s[..9] == "Patient: " && s[9..] == username
  {
    "Patient: " + username
  }

  /** `Doctor.__str__`, given the username of the owning user. */
  function DoctorStr(username: string): (s: string)
    ensures |s| == |username| + 8 && s[..8] == "Doctor: " && s[8..] == username
  {
    "Doctor: " + username
  }

  /** For one username, the user string form tells the role apart. */
  lemma UserStrDeterminesUserType(u1: User, u2: User)
    requires u1.username == u2.username && UserStr(u1) == UserStr(u2)
    ensures u1.userType == u2.userType
  {
    var n := |u1.username| + 2;
    var s := UserStr(u1);
    assert s[n..|s| - 1] == u1.userType;
    assert UserStr(u2)[n..|s| - 1] == u2.userType;
  }

  /** Profile string forms name their owner unambiguously and a patient's never reads as a doctor's. */
  lemma ProfileStrsDistinguish(a: string, b: string)
    ensures PatientStr(a) != DoctorStr(b)
    ensures PatientStr(a) == PatientStr(b) ==> a == b
    ensures DoctorStr(a) == DoctorStr(b) ==> a == b
  {
    assert PatientStr(a)[0] == 'P' && DoctorStr(b)[0] == 'D';
    assert PatientStr(a)[9..] == a && PatientStr(b)[9..] == b;
    assert DoctorStr(a)[8..] == a && DoctorStr(b)[8..] == b;
  }
}
