/**
 * accounts/serializers.py: the signup pipeline (the framework's field-level checks, then
 * `validate`), `create`, the login check, and the dashboard projection with `full_name`.
 *
 * The serializer framework runs every field's checks first and gathers one list of messages
 * per failing field; only when no field failed does it call the object-level `validate`.
 */
module Serializers {
  import opened Wrappers
  import opened Text
  import opened Models
  import opened Store

  const RequiredMessage := "This field is required."
  const BlankMessage := "This field may not be blank."
  const NullCharacterMessage := "Null characters are not allowed."
  const Line1TooLongMessage := "Ensure this field has no more than 255 characters."
  const CityTooLongMessage := "Ensure this field has no more than 100 characters."
  const StateTooLongMessage := "Ensure this field has no more than 100 characters."
  const PincodeTooLongMessage := "Ensure this field has no more than 10 characters."
  const PasswordMismatchMessage := "Password fields didn't match."
  const EmailExistsMessage := "A user with this email already exists."
  const UsernameExistsMessage := "A user with this username already exists."
  /** The message of the unique validator the framework derives from `username`'s unique index. */
  const UniqueUsernameMessage := "A user with that username already exists."
  const InvalidCredentialsMessage := "Invalid username or password."
  const DisabledAccountMessage := "User account is disabled."
  const MissingCredentialsMessage := "Must include \"username\" and \"password\"."
  const NonFieldErrorsKey := "non_field_errors"

  function InvalidChoiceMessage(t: string): string {
    "\"" + t + "\" is not a valid choice."
  }

  /** The messages of one field: a list, or per-field lists for the nested address. */
  datatype FieldError = Messages(texts: seq<string>) | NestedErrors(fields: map<string, seq<string>>)

  /** `serializer.errors`. */
  type Errors = map<string, FieldError>

  /** A submitted text field: `None` when the key is absent from the request body. */
  datatype AddressRequest = AddressRequest(
    line1: Option<string>, city: Option<string>, state: Option<string>, pincode: Option<string>)

  datatype SignupRequest = SignupRequest(
    firstName: Option<string>,
    lastName: Option<string>,
    username: Option<string>,
    email: Option<string>,
    password: Option<string>,
    confirmPassword: Option<string>,
    profilePicture: Option<string>,
    userType: Option<string>,
    address: Option<AddressRequest>)

  /** The first step of every `CharField` (`trim_whitespace`): surrounding whitespace is stripped
      before the blank test and before any validator, so a whitespace-only value is blank. */
  function TrimField(v: Option<string>): (t: Option<string>)
    ensures t.Some? <==> v.Some?
    ensures t.Some? ==> IsStripOf(v.value, t.value)
  {
    match v
    case None => None
    case Some(s) => Some(Strip(s))
  }

  /** The nested address as its four `CharField`s receive it. */
  function TrimAddress(v: Option<AddressRequest>): (t: Option<AddressRequest>)
    ensures t.Some? <==> v.Some?
    ensures t.Some? ==> t.value == AddressRequest(TrimField(v.value.line1), TrimField(v.value.city),
                                                  TrimField(v.value.state), TrimField(v.value.pincode))
  {
    match v
    case None => None
    case Some(a) => Some(AddressRequest(TrimField(a.line1), TrimField(a.city), TrimField(a.state), TrimField(a.pincode)))
  }

  /** The signup request as the serializer's fields see it: every text field trimmed; the role
      (a `ChoiceField`) and the picture (an `ImageField`) are taken as sent. */
  function TrimRequest(req: SignupRequest): (t: SignupRequest)
    ensures t.userType == req.userType && t.profilePicture == req.profilePicture
    ensures t.firstName == TrimField(req.firstName) && t.lastName == TrimField(req.lastName)
    ensures t.username == TrimField(req.username) && t.email == TrimField(req.email)
    ensures t.password == TrimField(req.password) && t.confirmPassword == TrimField(req.confirmPassword)
    ensures t.address == TrimAddress(req.address)
  {
    SignupRequest(TrimField(req.firstName), TrimField(req.lastName), TrimField(req.username), TrimField(req.email),
                  TrimField(req.password), TrimField(req.confirmPassword), req.profilePicture, req.userType,
                  TrimAddress(req.address))
  }

  /** A value of whitespace only is blank once trimmed. */
  lemma {:induction false} WhitespaceOnlyIsBlank(s: string)
    requires AllSpace(s)
    ensures TrimField(Some(s)) == Some("")
  {
    var i :| StrippedAt(s, Strip(s), i);
    StrippedEmptyIffAllSpace(s, Strip(s), i);
  }

  /** A password and a confirmation that differ only by surrounding whitespace, on either side
      and of any length, are the same value once both are trimmed. */
  lemma {:induction false} PaddedConfirmationMatches(req: SignupRequest, p: string,
                                                     before1: string, after1: string, before2: string, after2: string)
    requires AllSpace(before1) && AllSpace(after1) && AllSpace(before2) && AllSpace(after2)
    requires req.password == Some(before1 + p + after1) && req.confirmPassword == Some(before2 + p + after2)
    ensures TrimRequest(req).password == TrimRequest(req).confirmPassword == Some(Strip(p))
  {
    StripPadded(before1, p, after1);
    StripPadded(before2, p, after2);
  }

  /** A valid pincode padded with whitespace on either side reaches the pincode validators as
      the bare digits. */
  lemma {:induction false} PaddedPincodeTrimmed(before: string, p: string, after: string)
    requires AllSpace(before) && AllSpace(after) && MatchesPincodePattern(p)
    ensures TrimField(Some(before + p + after)) == Some(p)
  {
    DigitIsNotSpace(p[0]);
    DigitIsNotSpace(p[|p| - 1]);
    StripUnpadded(p);
    StripPadded(before, p, after);
  }

  /** One field's outcome: its error, or `None` when it passed. */
  function ErrorOf<T, E>(r: Result<T, E>): (e: Option<E>)
    ensures e.Some? <==> r.Err?
    ensures e.Some? ==> e.value == r.error
  {
    if r.Err? then Some(r.error) else None
  }

  function MessagesOf<T>(r: Result<T, seq<string>>): (e: Option<FieldError>)
    ensures e.Some? <==> r.Err?
    ensures e.Some? ==> e.value == Messages(r.error)
  {
    if r.Err? then Some(Messages(r.error)) else None
  }

  predicate DistinctKeys<E>(entries: seq<(string, Option<E>)>) {
    forall i, j :: 0 <= i < j < |entries| ==> entries[i].0 != entries[j].0
  }

  function KeysOf<E>(entries: seq<(string, Option<E>)>): set<string> {
    set i | 0 <= i < |entries| :: entries[i].0
  }

  /** Gathers per-field outcomes into an error map that holds exactly the fields that failed. */
  function Gather<E>(entries: seq<(string, Option<E>)>): (errors: map<string, E>)
    requires DistinctKeys(entries)
    ensures errors.Keys <= KeysOf(entries)
    ensures forall i :: 0 <= i < |entries| ==> (entries[i].0 in errors <==> entries[i].1.Some?)
    ensures forall i :: 0 <= i < |entries| && entries[i].1.Some? ==> errors[entries[i].0] == entries[i].1.value
  {
    if entries == [] then map[]
    else
      var rest := Gather(entries[1..]);
      assert forall i :: 1 <= i < |entries| ==> entries[i] == entries[1..][i - 1];
      assert KeysOf(entries) == {entries[0].0} + KeysOf(entries[1..]);
      assert entries[0].0 !in KeysOf(entries[1..]);
      if entries[0].1.Some? then
        var errors := rest[entries[0].0 := entries[0].1.value];
        assert entries[0].0 in errors;
        errors
      else
        rest
  }

  /** No error is gathered exactly when every field passed. */
  lemma GatherEmptyIff<E>(entries: seq<(string, Option<E>)>)
    requires DistinctKeys(entries)
    ensures Gather(entries) == map[] <==> forall i :: 0 <= i < |entries| ==> entries[i].1.None?
  {
    var errors := Gather(entries);
    if errors != map[] {
      var k :| k in errors;
      assert k in KeysOf(entries);
      var i :| 0 <= i < |entries| && entries[i].0 == k;
      assert entries[i].1.Some?;
    }
  }

  /** The empty-value test of a required `CharField` that may not be blank, made before any
      validator runs. */
  function RequiredNonBlank(v: Option<string>): (r: Result<string, seq<string>>)
    ensures r.Ok? <==> v.Some? && v.value != ""
    ensures r.Ok? ==> r.value == v.value
    ensures r.Err? ==> r.error == (if v.None? then [RequiredMessage] else [BlankMessage])
  {
    match v
    case None => Err([RequiredMessage])
    case Some(s) => if s == "" then Err([BlankMessage]) else Ok(s)
  }

  /** A `CharField`'s `run_validators`: every validator runs and all messages are collected,
      the field's own (`own`) first, then `ProhibitNullCharactersValidator`'s. */
  function RunValidators(s: string, own: seq<string>): (r: Result<string, seq<string>>)
    ensures r.Ok? <==> own == [] && !HasNullCharacter(s)
    ensures r.Ok? ==> r.value == s
    ensures r.Err? ==> |own| <= |r.error| && r.error[..|own|] == own
    ensures r.Err? ==> (HasNullCharacter(s) <==> |r.error| == |own| + 1 && r.error[|own|] == NullCharacterMessage)
    ensures !HasNullCharacter(s) && own != [] ==> r == Err(own)
  {
    if HasNullCharacter(s) then
      var messages := own + [NullCharacterMessage];
      assert messages[..|own|] == own && messages[|own|] == NullCharacterMessage;
      Err(messages)
    else if own == [] then Ok(s)
    else Err(own)
  }

  /** A required text field that may be blank (`first_name`, `last_name`, `email`: the model
      columns are `blank=True`). */
  function PresentField(v: Option<string>): (r: Result<string, seq<string>>)
    ensures r.Ok? <==> v.Some? && !HasNullCharacter(v.value)
    ensures r.Ok? ==> r.value == v.value
    ensures r.Err? ==> r.error == (if v.None? then [RequiredMessage] else [NullCharacterMessage])
  {
    match v
    case None => Err([RequiredMessage])
    case Some(s) => RunValidators(s, [])
  }

  /** A required text field that may not be blank, with no validators of its own. */
  function NonBlankField(v: Option<string>): (r: Result<string, seq<string>>)
    ensures r.Ok? <==> v.Some? && v.value != "" && !HasNullCharacter(v.value)
    ensures r.Ok? ==> r.value == v.value
    ensures r.Err? ==> r.error == [RequiredMessage] || r.error == [BlankMessage] || r.error == [NullCharacterMessage]
  {
    match RequiredNonBlank(v)
    case Err(e) => Err(e)
    case Ok(s) => RunValidators(s, [])
  }

  /** A required, non-blank text field with a `max_length`. */
  function BoundedField(v: Option<string>, maxLength: nat, tooLong: string): (r: Result<string, seq<string>>)
    ensures r.Ok? <==> v.Some? && 0 < |v.value| <= maxLength && !HasNullCharacter(v.value)
    ensures r.Ok? ==> r.value == v.value
    ensures v.Some? && |v.value| > maxLength ==> r.Err? && r.error != [] && r.error[0] == tooLong
    ensures v.Some? && |v.value| > maxLength && !HasNullCharacter(v.value) ==> r == Err([tooLong])
    ensures v.Some? && v.value != "" && HasNullCharacter(v.value) ==> r.Err? && NullCharacterMessage in r.error
  {
    match RequiredNonBlank(v)
    case Err(e) => Err(e)
    case Ok(s) => RunValidators(s, if |s| > maxLength then [tooLong] else [])
  }

  /** `pincode`: non-blank, then the regex validator and the max-length validator, both reported. */
  function CheckPincode(v: Option<string>): (r: Result<string, seq<string>>)
    ensures r.Ok? <==> v.Some? && MatchesPincodePattern(v.value) && !HasNullCharacter(v.value)
    ensures r.Ok? ==> r.value == v.value && |r.value| <= PincodeMaxLength
    ensures v.Some? && v.value != "" && !MatchesPincodePattern(v.value) ==> r.Err? && r.error != [] && r.error[0] == PincodeMessage
    ensures v.Some? && |v.value| > PincodeMaxLength ==> r.Err? && PincodeTooLongMessage in r.error
    ensures v.Some? && v.value != "" && HasNullCharacter(v.value) ==> r.Err? && NullCharacterMessage in r.error
  {
    match RequiredNonBlank(v)
    case Err(e) => Err(e)
    case Ok(p) =>
      var own := (if MatchesPincodePattern(p) then [] else [PincodeMessage])
               + (if |p| > PincodeMaxLength then [PincodeTooLongMessage] else []);
      assert |p| > PincodeMaxLength ==> own[|own| - 1] == PincodeTooLongMessage;
      RunValidators(p, own)
  }

  /** Every address field is present, non-blank, free of null characters and fits its column,
      and the pincode is valid. */
  predicate AcceptableAddress(a: AddressRequest) {
    && a.line1.Some? && 0 < |a.line1.value| <= Line1MaxLength && !HasNullCharacter(a.line1.value)
    && a.city.Some? && 0 < |a.city.value| <= CityMaxLength && !HasNullCharacter(a.city.value)
    && a.state.Some? && 0 < |a.state.value| <= StateMaxLength && !HasNullCharacter(a.state.value)
    && a.pincode.Some? && MatchesPincodePattern(a.pincode.value) && !HasNullCharacter(a.pincode.value)
  }

  /** The nested `AddressSerializer`. */
  function CheckAddress(v: Option<AddressRequest>): (r: Result<Address, FieldError>)
    ensures r.Ok? <==> v.Some? && AcceptableAddress(v.value)
    ensures r.Ok? ==> v == Some(AddressRequest(Some(r.value.line1), Some(r.value.city), Some(r.value.state), Some(r.value.pincode)))
    ensures r.Ok? ==> |r.value.pincode| <= PincodeMaxLength
    ensures v.None? ==> r == Err(Messages([RequiredMessage]))
    ensures v.Some? && v.value.pincode.Some? && v.value.pincode.value != "" && !MatchesPincodePattern(v.value.pincode.value) ==>
              r.Err? && r.error.NestedErrors? && "pincode" in r.error.fields && PincodeMessage in r.error.fields["pincode"]
  {
    match v
    case None => Err(Messages([RequiredMessage]))
    case Some(a) =>
      var line1 := BoundedField(a.line1, Line1MaxLength, Line1TooLongMessage);
      var city := BoundedField(a.city, CityMaxLength, CityTooLongMessage);
      var state := BoundedField(a.state, StateMaxLength, StateTooLongMessage);
      var pincode := CheckPincode(a.pincode);
      if line1.Ok? && city.Ok? && state.Ok? && pincode.Ok? then
        Ok(Address(line1.value, city.value, state.value, pincode.value))
      else
        var entries := [("line1", ErrorOf(line1)), ("city", ErrorOf(city)), ("state", ErrorOf(state)),
                        ("pincode", ErrorOf(pincode))];
        assert entries[3] == ("pincode", ErrorOf(pincode));
        Err(NestedErrors(Gather(entries)))
  }

  /** `UserSignupSerializer.validate_email`. */
  function ValidateEmail(users: map<UserId, User>, value: string): (r: Result<string, seq<string>>)
    ensures r.Err? <==> EmailTaken(users, value)
    ensures r.Ok? ==> r.value == value
    ensures r.Err? ==> r.error == [EmailExistsMessage]
  {
    if EmailTaken(users, value) then Err([EmailExistsMessage]) else Ok(value)
  }

  /** `UserSignupSerializer.validate_username`. */
  function ValidateUsername(users: map<UserId, User>, value: string): (r: Result<string, seq<string>>)
    ensures r.Err? <==> UsernameTaken(users, value)
    ensures r.Ok? ==> r.value == value
    ensures r.Err? ==> r.error == [UsernameExistsMessage]
  {
    if UsernameTaken(users, value) then Err([UsernameExistsMessage]) else Ok(value)
  }

  /** `username`: non-blank, the unique validator and the null-character validator, then
      `validate_username` once they pass. */
  function CheckUsername(users: map<UserId, User>, v: Option<string>): (r: Result<string, seq<string>>)
    ensures r.Ok? <==> v.Some? && v.value != "" && !UsernameTaken(users, v.value) && !HasNullCharacter(v.value)
    ensures r.Ok? ==> r.value == v.value
    ensures v.Some? && v.value != "" && UsernameTaken(users, v.value) ==> r.Err? && r.error != [] && r.error[0] == UniqueUsernameMessage
    ensures v.Some? && v.value != "" && UsernameTaken(users, v.value) && !HasNullCharacter(v.value) ==>
              r == Err([UniqueUsernameMessage])
  {
    match RequiredNonBlank(v)
    case Err(e) => Err(e)
    case Ok(name) =>
      match RunValidators(name, if UsernameTaken(users, name) then [UniqueUsernameMessage] else [])
      case Err(e) => Err(e)
      case Ok(_) => ValidateUsername(users, name)
  }

  /** `email`: present (blank allowed) and free of null characters, then `validate_email`. */
  function CheckEmail(users: map<UserId, User>, v: Option<string>): (r: Result<string, seq<string>>)
    ensures r.Ok? <==> v.Some? && !EmailTaken(users, v.value) && !HasNullCharacter(v.value)
    ensures r.Ok? ==> r.value == v.value
    ensures v.Some? && HasNullCharacter(v.value) ==> r == Err([NullCharacterMessage])
    ensures v.Some? && !HasNullCharacter(v.value) && EmailTaken(users, v.value) ==> r == Err([EmailExistsMessage])
  {
    match PresentField(v)
    case Err(e) => Err(e)
    case Ok(email) => ValidateEmail(users, email)
  }

  /** `password`: non-blank, then the password policy and the null-character validator, whose
      messages are all reported. */
  function CheckPassword(v: Option<string>, validatePassword: string -> seq<string>): (r: Result<string, seq<string>>)
    ensures r.Ok? <==> v.Some? && v.value != "" && validatePassword(v.value) == [] && !HasNullCharacter(v.value)
    ensures r.Ok? ==> r.value == v.value
    ensures v.Some? && v.value != "" && validatePassword(v.value) != [] && !HasNullCharacter(v.value) ==>
              r == Err(validatePassword(v.value))
    ensures v.Some? && v.value != "" && HasNullCharacter(v.value) ==> r.Err? && NullCharacterMessage in r.error
  {
    match RequiredNonBlank(v)
    case Err(e) => Err(e)
    case Ok(p) => RunValidators(p, validatePassword(p))
  }

  /** `user_type` as a `ChoiceField` over `USER_TYPE_CHOICES`. */
  function CheckUserType(v: Option<string>): (r: Result<string, seq<string>>)
    ensures r.Ok? <==> v.Some? && IsUserType(v.value)
    ensures r.Ok? ==> r.value == v.value
  {
    match v
    case None => Err([RequiredMessage])
    case Some(t) => if IsUserType(t) then Ok(t) else Err([InvalidChoiceMessage(t)])
  }

  /** The keyword arguments `create` hands to `create_user`. */
  function UserKwargs(data: map<string, Value>): (kwargs: map<string, Value>)
    ensures kwargs.Keys == data.Keys - {"address", "password", "confirm_password"}
    ensures forall k :: k in kwargs ==> kwargs[k] == data[k]
  {
    data - {"address", "password", "confirm_password"}
  }

  /** What `create` and the database need of the validated data. */
  ghost predicate CreatableData(users: map<UserId, User>, data: map<string, Value>) {
    && "address" in data && data["address"].Nested?
    && |data["address"].address.pincode| <= PincodeMaxLength
    && "password" in data && data["password"].Str?
    && "confirm_password" in data
    && UserKwargs(data).Keys <= UserFieldNames
    && "username" in data && !UsernameTaken(users, StrArg(data, "username"))
  }

  /** What validation guarantees of the data it hands to `create`. */
  ghost predicate SignupData(users: map<UserId, User>, data: map<string, Value>) {
    && CreatableData(users, data)
    && MatchesPincodePattern(data["address"].address.pincode)
    && "email" in data && data["email"].Str? && !EmailTaken(users, data["email"].s)
    && "user_type" in data && data["user_type"].Str? && IsUserType(data["user_type"].s)
  }

  /** The row `create_user` builds from validated data has an unused email and one of the roles,
      the one `create` branches on. */
  lemma SignupRowIsNew(users: map<UserId, User>, data: map<string, Value>, id: UserId, passwordHash: string)
    requires SignupData(users, data)
    ensures var u := UserFromKwargs(id, UserKwargs(data), passwordHash);
            && !EmailTaken(users, u.email) && IsUserType(u.userType) && u.userType == StrArg(data, "user_type")
  {
    assert StrArg(UserKwargs(data), "email") == data["email"].s;
    assert StrArg(UserKwargs(data), "user_type") == data["user_type"].s;
  }

  /** Every field of the signup request passes its own checks. */
  predicate AllFieldsPass(users: map<UserId, User>, req: SignupRequest, validatePassword: string -> seq<string>) {
    && PresentField(req.firstName).Ok?
    && PresentField(req.lastName).Ok?
    && CheckUsername(users, req.username).Ok?
    && CheckEmail(users, req.email).Ok?
    && CheckPassword(req.password, validatePassword).Ok?
    && NonBlankField(req.confirmPassword).Ok?
    && CheckUserType(req.userType).Ok?
    && CheckAddress(req.address).Ok?
  }

  /** Eight outcomes all passed exactly when each of them did. */
  lemma AllPassedOfEight<E>(entries: seq<(string, Option<E>)>)
    requires |entries| == 8
    ensures (forall i :: 0 <= i < |entries| ==> entries[i].1.None?) <==>
            (&& entries[0].1.None? && entries[1].1.None? && entries[2].1.None? && entries[3].1.None?
             && entries[4].1.None? && entries[5].1.None? && entries[6].1.None? && entries[7].1.None?)
  {
  }

  /** The signup serializer's declared fields, in order. */
  const SignupFields: seq<string> :=
    ["first_name", "last_name", "username", "email", "password", "confirm_password", "user_type", "address"]

  lemma SignupFieldsDistinct()
    ensures forall i, j :: 0 <= i < j < |SignupFields| ==> SignupFields[i] != SignupFields[j]
  {
  }

  /** Each signup field with its outcome, in the serializer's field order. */
  function SignupFieldOutcomes(users: map<UserId, User>, req: SignupRequest, validatePassword: string -> seq<string>)
    : (entries: seq<(string, Option<FieldError>)>)
    ensures DistinctKeys(entries)
    ensures |entries| == 8
    ensures entries[0] == ("first_name", MessagesOf(PresentField(req.firstName)))
    ensures entries[1] == ("last_name", MessagesOf(PresentField(req.lastName)))
    ensures entries[2] == ("username", MessagesOf(CheckUsername(users, req.username)))
    ensures entries[3] == ("email", MessagesOf(CheckEmail(users, req.email)))
    ensures entries[4] == ("password", MessagesOf(CheckPassword(req.password, validatePassword)))
    ensures entries[5] == ("confirm_password", MessagesOf(NonBlankField(req.confirmPassword)))
    ensures entries[6] == ("user_type", MessagesOf(CheckUserType(req.userType)))
    ensures entries[7] == ("address", ErrorOf(CheckAddress(req.address)))
  {
    var outcomes := [
      MessagesOf(PresentField(req.firstName)),
      MessagesOf(PresentField(req.lastName)),
      MessagesOf(CheckUsername(users, req.username)),
      MessagesOf(CheckEmail(users, req.email)),
      MessagesOf(CheckPassword(req.password, validatePassword)),
      MessagesOf(NonBlankField(req.confirmPassword)),
      MessagesOf(CheckUserType(req.userType)),
      ErrorOf(CheckAddress(req.address))];
    var entries := seq(|SignupFields|, i requires 0 <= i < |SignupFields| => (SignupFields[i], outcomes[i]));
    SignupFieldsDistinct();
    entries
  }

  /** Every signup field passed exactly when every field check passes. */
  lemma SignupFieldsAllPass(users: map<UserId, User>, req: SignupRequest, validatePassword: string -> seq<string>)
    ensures var entries := SignupFieldOutcomes(users, req, validatePassword);
            (forall i :: 0 <= i < |entries| ==> entries[i].1.None?) <==> AllFieldsPass(users, req, validatePassword)
  {
    AllPassedOfEight(SignupFieldOutcomes(users, req, validatePassword));
  }

  /** The field errors gathered by the field-level half of `is_valid()`. */
  function FieldErrors(users: map<UserId, User>, req: SignupRequest, validatePassword: string -> seq<string>)
    : (errors: Errors)
    ensures errors == map[] <==> AllFieldsPass(users, req, validatePassword)
    ensures CheckUsername(users, req.username).Err? ==>
              "username" in errors && errors["username"] == Messages(CheckUsername(users, req.username).error)
    ensures CheckEmail(users, req.email).Err? ==>
              "email" in errors && errors["email"] == Messages(CheckEmail(users, req.email).error)
    ensures CheckPassword(req.password, validatePassword).Err? ==>
              "password" in errors && errors["password"] == Messages(CheckPassword(req.password, validatePassword).error)
  {
    var entries := SignupFieldOutcomes(users, req, validatePassword);
    GatherEmptyIff(entries);
    SignupFieldsAllPass(users, req, validatePassword);
    Gather(entries)
  }

  /** The validated data of a request whose every field passed. */
  function ValidatedAttrs(users: map<UserId, User>, req: SignupRequest, validatePassword: string -> seq<string>)
    : (data: map<string, Value>)
    requires AllFieldsPass(users, req, validatePassword)
    ensures SignupData(users, data)
    ensures data["password"] == Str(req.password.value) && data["confirm_password"] == Str(req.confirmPassword.value)
  {
    var address := CheckAddress(req.address).value;
    var fields := map[
      "first_name" := Str(req.firstName.value),
      "last_name" := Str(req.lastName.value),
      "username" := Str(req.username.value),
      "email" := Str(req.email.value),
      "password" := Str(req.password.value),
      "confirm_password" := Str(req.confirmPassword.value),
      "user_type" := Str(req.userType.value),
      "address" := Nested(address)];
    var data := if req.profilePicture.Some? then fields["profile_picture" := File(req.profilePicture.value)] else fields;
    assert UserKwargs(data).Keys <= UserFieldNames;
    assert StrArg(data, "username") == req.username.value;
    data
  }

  /** The user row a signup request asks for: the submitted fields, active, with the given password hash. */
  function SubmittedUser(id: UserId, req: SignupRequest, passwordHash: string): User
    requires req.firstName.Some? && req.lastName.Some? && req.username.Some? && req.email.Some? && req.userType.Some?
  {
    User(id, req.username.value, req.email.value, req.firstName.value, req.lastName.value, req.userType.value,
         true, passwordHash, req.profilePicture)
  }

  /** Popping the address and both passwords leaves the user row `create_user` builds unchanged. */
  lemma KwargsKeepUserRow(data: map<string, Value>, id: UserId, passwordHash: string)
    ensures UserFromKwargs(id, UserKwargs(data), passwordHash) == UserFromKwargs(id, data, passwordHash)
  {
    var kwargs := UserKwargs(data);
    assert StrArg(kwargs, "username") == StrArg(data, "username");
    assert StrArg(kwargs, "email") == StrArg(data, "email");
    assert StrArg(kwargs, "first_name") == StrArg(data, "first_name");
    assert StrArg(kwargs, "last_name") == StrArg(data, "last_name");
    assert StrArg(kwargs, "user_type") == StrArg(data, "user_type");
  }

  /** The validated data holds the submitted values. */
  lemma ValidatedAttrsCarryRequest(users: map<UserId, User>, req: SignupRequest, validatePassword: string -> seq<string>,
                                   id: UserId, passwordHash: string)
    requires AllFieldsPass(users, req, validatePassword)
    ensures var data := ValidatedAttrs(users, req, validatePassword);
            && UserFromKwargs(id, data, passwordHash) == SubmittedUser(id, req, passwordHash)
            && data["address"].address == CheckAddress(req.address).value
  {
  }

  /** The row `create_user` builds from the validated data is the one the request asked for, and
      the address and password `create` reads are the submitted ones. */
  lemma CreatedUserIsSubmitted(users: map<UserId, User>, req: SignupRequest, validatePassword: string -> seq<string>,
                               id: UserId, passwordHash: string)
    requires AllFieldsPass(users, req, validatePassword)
    ensures var data := ValidatedAttrs(users, req, validatePassword);
            && UserFromKwargs(id, UserKwargs(data), passwordHash) == SubmittedUser(id, req, passwordHash)
            && data["address"].address == CheckAddress(req.address).value
            && data["password"].s == req.password.value
  {
    KwargsKeepUserRow(ValidatedAttrs(users, req, validatePassword), id, passwordHash);
    ValidatedAttrsCarryRequest(users, req, validatePassword, id, passwordHash);
  }

  /** The field-level half of `is_valid()`: if any field failed, all field errors are raised. */
  function FieldValidation(users: map<UserId, User>, req: SignupRequest, validatePassword: string -> seq<string>)
    : (r: Result<map<string, Value>, Errors>)
    ensures r.Ok? <==> AllFieldsPass(users, req, validatePassword)
    ensures r.Err? ==> r.error != map[] && r.error == FieldErrors(users, req, validatePassword)
    ensures r.Ok? ==> SignupData(users, r.value)
    ensures r.Ok? ==> req.password.Some? && r.value["password"] == Str(req.password.value)
    ensures r.Ok? ==> req.confirmPassword.Some? && r.value["confirm_password"] == Str(req.confirmPassword.value)
    ensures r.Ok? ==> AllFieldsPass(users, req, validatePassword) && r.value == ValidatedAttrs(users, req, validatePassword)
  {
    var errors := FieldErrors(users, req, validatePassword);
    if errors != map[] then Err(errors) else Ok(ValidatedAttrs(users, req, validatePassword))
  }

  /** `UserSignupSerializer.validate`. */
  function Validate(attrs: map<string, Value>): (r: Result<map<string, Value>, Errors>)
    requires "password" in attrs && "confirm_password" in attrs
    ensures r.Ok? <==> attrs["password"] == attrs["confirm_password"]
    ensures r.Ok? ==> r.value == attrs
    ensures r.Err? ==> r.error == map["password" := Messages([PasswordMismatchMessage])]
  {
    if attrs["password"] != attrs["confirm_password"] then
      Err(map["password" := Messages([PasswordMismatchMessage])])
    else
      Ok(attrs)
  }

  /** `UserSignupSerializer(data=...).is_valid()`: the validated data, or `serializer.errors`. */
  function SignupValidation(users: map<UserId, User>, req: SignupRequest, validatePassword: string -> seq<string>)
    : (r: Result<map<string, Value>, Errors>)
    ensures r.Ok? <==> AllFieldsPass(users, req, validatePassword) && req.password == req.confirmPassword
    ensures r.Err? ==> r.error != map[]
    ensures r.Ok? ==> SignupData(users, r.value) && r.value["password"] == r.value["confirm_password"]
    ensures r.Ok? ==> AllFieldsPass(users, req, validatePassword) && r.value == ValidatedAttrs(users, req, validatePassword)
  {
    match FieldValidation(users, req, validatePassword)
    case Err(e) => Err(e)
    case Ok(attrs) => Validate(attrs)
  }

  /** A request is accepted when the names are present, the username is non-blank and unused,
      the email is unused, the password is non-blank, meets the policy and matches its
      confirmation, no text field contains a null character, the role is one of the two
      choices, and the address fields are present, non-blank, fit their columns and the pincode
      has five to ten digits. */
  lemma SignupAccepts(users: map<UserId, User>, req: SignupRequest, validatePassword: string -> seq<string>)
    requires req.firstName.Some? && req.lastName.Some?
    requires req.username.Some? && req.username.value != "" && !UsernameTaken(users, req.username.value)
    requires req.email.Some? && !EmailTaken(users, req.email.value)
    requires req.password.Some? && req.password.value != "" && validatePassword(req.password.value) == []
    requires req.confirmPassword == req.password
    requires !HasNullCharacter(req.firstName.value) && !HasNullCharacter(req.lastName.value)
    requires !HasNullCharacter(req.username.value) && !HasNullCharacter(req.email.value)
    requires !HasNullCharacter(req.password.value)
    requires req.userType == Some("patient") || req.userType == Some("doctor")
    requires req.address.Some? && AcceptableAddress(req.address.value)
    ensures SignupValidation(users, req, validatePassword).Ok?
  {
    UserTypeChoicesAre(req.userType.value);
  }

  /** A password/confirmation mismatch is always refused; once every field passes, the only
      error is the one keyed "password". */
  lemma SignupRefusesMismatch(users: map<UserId, User>, req: SignupRequest, validatePassword: string -> seq<string>)
    requires req.password.Some? && req.confirmPassword.Some?
    requires req.password.value != req.confirmPassword.value
    ensures SignupValidation(users, req, validatePassword).Err?
    ensures FieldValidation(users, req, validatePassword).Ok? ==>
              SignupValidation(users, req, validatePassword).error == map["password" := Messages([PasswordMismatchMessage])]
  {
  }

  /** A submitted email some stored user already has is refused, with validate_email's message. */
  lemma SignupRefusesTakenEmail(users: map<UserId, User>, req: SignupRequest, validatePassword: string -> seq<string>)
    requires req.email.Some? && EmailTaken(users, req.email.value)
    ensures var r := SignupValidation(users, req, validatePassword);
            r.Err? && "email" in r.error
    ensures var r := SignupValidation(users, req, validatePassword);
            !HasNullCharacter(req.email.value) ==> r.Err? && r.error["email"] == Messages([EmailExistsMessage])
  {
    assert CheckEmail(users, req.email).Err?;
  }

  /** A submitted username some stored user already has is refused; the unique validator
      answers, so validate_username's own message never reaches the client. */
  lemma SignupRefusesTakenUsername(users: map<UserId, User>, req: SignupRequest, validatePassword: string -> seq<string>)
    requires req.username.Some? && req.username.value != "" && UsernameTaken(users, req.username.value)
    ensures var r := SignupValidation(users, req, validatePassword);
            r.Err? && "username" in r.error && r.error["username"].Messages?
    ensures var r := SignupValidation(users, req, validatePassword);
            r.Err? && "username" in r.error && r.error["username"].texts != [] && r.error["username"].texts[0] == UniqueUsernameMessage
    ensures var r := SignupValidation(users, req, validatePassword);
            !HasNullCharacter(req.username.value) ==> r.Err? && r.error["username"] == Messages([UniqueUsernameMessage])
  {
    assert CheckUsername(users, req.username).Err?;
  }

  /** `create`: pop `address`, `password` and `confirm_password` from the validated data, then
      three separate inserts (user, address, role profile) with no transaction around them. */
  method Create(store: AccountStore, validatedData: map<string, Value>, makePassword: string -> string)
    returns (id: UserId)
    requires store.Valid() && CreatableData(store.users, validatedData)
    modifies store
    ensures store.Valid()
    ensures id == old(store.nextId) && id !in old(store.users)
    ensures store.users == old(store.users)[id := UserFromKwargs(id, UserKwargs(validatedData), makePassword(validatedData["password"].s))]
    ensures store.addresses == old(store.addresses)[id := validatedData["address"].address]
    ensures store.patients == if StrArg(validatedData, "user_type") == "patient" then old(store.patients) + {id} else old(store.patients)
    ensures store.doctors == if StrArg(validatedData, "user_type") == "doctor" then old(store.doctors) + {id} else old(store.doctors)
    ensures store.tokens == old(store.tokens) && store.nextId == old(store.nextId) + 1
  {
    var data := validatedData;
    var addressData := data["address"].address;
    data := data - {"address"};
    var password := data["password"].s;
    data := data - {"password"};
    data := data - {"confirm_password"};
    assert data == UserKwargs(validatedData);
    id := store.InsertUser(data, makePassword(password));
    store.InsertAddress(id, addressData);
    var user := store.users[id];
    if user.userType == "patient" {
      store.InsertPatient(id);
    } else if user.userType == "doctor" {
      store.InsertDoctor(id);
    }
  }

  /** Python truthiness of an optional string from `attrs.get(...)`. */
  predicate Truthy(v: Option<string>) {
    v.Some? && v.value != ""
  }

  /** `UserLoginSerializer.validate`, with `authenticate` as a parameter. */
  function LoginValidate(username: Option<string>, password: Option<string>, authenticate: (string, string) -> Option<User>)
    : (r: Result<User, string>)
    ensures r.Ok? ==> Truthy(username) && Truthy(password)
    ensures r.Ok? ==> authenticate(username.value, password.value) == Some(r.value) && r.value.isActive
    ensures r.Err? ==> r.error in {InvalidCredentialsMessage, DisabledAccountMessage, MissingCredentialsMessage}
  {
    if Truthy(username) && Truthy(password) then
      match authenticate(username.value, password.value)
      case None => Err(InvalidCredentialsMessage)
      case Some(user) => if !user.isActive then Err(DisabledAccountMessage) else Ok(user)
    else
      Err(MissingCredentialsMessage)
  }

  /** `authenticate` only ever answers with the stored user of the submitted username. */
  ghost predicate ReturnsStoredUser(authenticate: (string, string) -> Option<User>, users: map<UserId, User>) {
    forall name, pw :: authenticate(name, pw).Some? ==>
      var u := authenticate(name, pw).value;
      u.id in users && users[u.id] == u && u.username == name
  }

  /** ... and only when `checkPassword(raw, hash)` accepts the submitted password. */
  ghost predicate SoundAuthentication(authenticate: (string, string) -> Option<User>,
                                      checkPassword: (string, string) -> bool, users: map<UserId, User>) {
    && ReturnsStoredUser(authenticate, users)
    && forall name, pw :: authenticate(name, pw).Some? ==> checkPassword(pw, authenticate(name, pw).value.passwordHash)
  }

  ghost predicate WrongPassword(users: map<UserId, User>, checkPassword: (string, string) -> bool, name: string, pw: string) {
    exists id :: id in users && users[id].username == name && !checkPassword(pw, users[id].passwordHash)
  }

  /** A user `authenticate` returns is the one stored under that username, and the password matched. */
  lemma AuthenticatedMeansRightPassword(users: map<UserId, User>, authenticate: (string, string) -> Option<User>,
                                        checkPassword: (string, string) -> bool, name: string, pw: string)
    requires SoundAuthentication(authenticate, checkPassword, users) && DistinctUsernames(users)
    ensures authenticate(name, pw).Some? ==> UsernameTaken(users, name) && !WrongPassword(users, checkPassword, name, pw)
  {
    if authenticate(name, pw).Some? {
      var u := authenticate(name, pw).value;
      assert u.id in users && users[u.id].username == name;
      forall id | id in users && users[id].username == name ensures checkPassword(pw, users[id].passwordHash) {
        assert id == u.id;
      }
    }
  }

  /** An unknown username and a wrong password get the same answer. */
  lemma LoginFailuresIndistinguishable(users: map<UserId, User>, authenticate: (string, string) -> Option<User>,
                                       checkPassword: (string, string) -> bool, name: string, pw: string)
    requires SoundAuthentication(authenticate, checkPassword, users) && DistinctUsernames(users)
    requires name != "" && pw != ""
    requires !UsernameTaken(users, name) || WrongPassword(users, checkPassword, name, pw)
    ensures LoginValidate(Some(name), Some(pw), authenticate) == Err(InvalidCredentialsMessage)
  {
    AuthenticatedMeansRightPassword(users, authenticate, checkPassword, name, pw);
  }

  /** The other outcomes of the login check: a disabled account, a missing field, success. */
  lemma LoginOutcomes(username: Option<string>, password: Option<string>, authenticate: (string, string) -> Option<User>)
    ensures !Truthy(username) || !Truthy(password) ==>
              LoginValidate(username, password, authenticate) == Err(MissingCredentialsMessage)
    ensures Truthy(username) && Truthy(password) && authenticate(username.value, password.value).Some? ==>
              var u := authenticate(username.value, password.value).value;
              LoginValidate(username, password, authenticate) == if u.isActive then Ok(u) else Err(DisabledAccountMessage)
  {
  }

  /** `UserLoginSerializer(data=...).is_valid()`: both fields are required and non-blank,
      then `validate` runs and its message is reported under "non_field_errors". */
  function LoginValidation(username: Option<string>, password: Option<string>, authenticate: (string, string) -> Option<User>)
    : (r: Result<User, Errors>)
    ensures r.Ok? <==> NonBlankField(username).Ok? && NonBlankField(password).Ok? && LoginValidate(username, password, authenticate).Ok?
    ensures r.Ok? ==> LoginValidate(username, password, authenticate) == Ok(r.value)
    ensures r.Err? ==> r.error != map[]
    ensures r.Err? && NonBlankField(username).Ok? && NonBlankField(password).Ok? ==>
              r.error == map[NonFieldErrorsKey := Messages([LoginValidate(username, password, authenticate).error])]
    ensures !NonBlankField(username).Ok? ==> r.Err? && "username" in r.error && r.error["username"] == Messages(NonBlankField(username).error)
    ensures !NonBlankField(password).Ok? ==> r.Err? && "password" in r.error && r.error["password"] == Messages(NonBlankField(password).error)
  {
    var name := NonBlankField(username);
    var pw := NonBlankField(password);
    if name.Ok? && pw.Ok? then
      match LoginValidate(username, password, authenticate)
      case Ok(user) => Ok(user)
      case Err(message) =>
        assert NonFieldErrorsKey in map[NonFieldErrorsKey := Messages([message])];
        Err(map[NonFieldErrorsKey := Messages([message])])
    else
      var entries := [("username", MessagesOf(name)), ("password", MessagesOf(pw))];
      assert entries[0].1.Some? || entries[1].1.Some?;
      assert entries[1] == ("password", MessagesOf(pw));
      assert forall i :: 0 <= i < |entries| ==> entries[i].0 != NonFieldErrorsKey;
      GatherEmptyIff(entries);
      Err(Gather(entries))
  }

  /** Behind the required-field checks, `validate`'s 'Must include' branch is never reached. */
  lemma MissingCredentialsNeverReported(username: Option<string>, password: Option<string>,
                                        authenticate: (string, string) -> Option<User>)
    ensures var r := LoginValidation(username, password, authenticate);
            r.Err? && NonFieldErrorsKey in r.error ==> r.error[NonFieldErrorsKey] != Messages([MissingCredentialsMessage])
  {
  }

  /** `UserDashboardSerializer.get_full_name`. */
  function FullName(firstName: string, lastName: string): (r: string)
    ensures IsStripOf(firstName + " " + lastName, r)
  {
    Strip(firstName + " " + lastName)
  }

  /** Two names without surrounding whitespace are joined by one space. */
  lemma FullNameJoinsNames(firstName: string, lastName: string)
    requires firstName != "" && !IsSpace(firstName[0])
    requires lastName != "" && !IsSpace(lastName[|lastName| - 1])
    ensures FullName(firstName, lastName) == firstName + " " + lastName
  {
    var s := firstName + " " + lastName;
    assert s[0] == firstName[0] && s[|s| - 1] == lastName[|lastName| - 1];
    assert s[0..|s|] == s;
    StripIs(s, s, 0);
  }

  /** An empty last name leaves no trailing space: the full name is the stripped first name. */
  lemma FullNameWithoutLastName(firstName: string)
    ensures FullName(firstName, "") == Strip(firstName)
  {
    assert firstName + " " + "" == firstName + [' '];
    StripAppendSpace(firstName, ' ');
  }

  /** An empty first name leaves no leading space: the full name is the stripped last name. */
  lemma FullNameWithoutFirstName(lastName: string)
    ensures FullName("", lastName) == Strip(lastName)
  {
    assert "" + " " + lastName == [' '] + lastName;
    StripPrependSpace(lastName, ' ');
  }

  /** A first name with no surrounding whitespace and an empty last name give the first name
      itself, with no trailing space. */
  lemma FullNameOfFirstNameOnly(firstName: string)
    requires firstName != [] && !IsSpace(firstName[0]) && !IsSpace(firstName[|firstName| - 1])
    ensures FullName(firstName, "") == firstName
  {
    FullNameWithoutLastName(firstName);
    StripUnpadded(firstName);
  }

  /** Names made of whitespace only give an empty full name. */
  lemma FullNameOfBlankNames(firstName: string, lastName: string)
    requires AllSpace(firstName) && AllSpace(lastName)
    ensures FullName(firstName, lastName) == ""
  {
    var s := firstName + " " + lastName;
    assert AllSpace(s) by {
      forall k | 0 <= k < |s| ensures IsSpace(s[k]) {
        if k < |firstName| {
          assert s[k] == firstName[k];
        } else if k > |firstName| {
          assert s[k] == lastName[k - |firstName| - 1];
        }
      }
    }
    var i :| StrippedAt(s, FullName(firstName, lastName), i);
    StrippedEmptyIffAllSpace(s, FullName(firstName, lastName), i);
  }

  /** `UserDashboardSerializer(user).data`, without the timestamps. */
  datatype Projection = Projection(
    id: UserId,
    username: string,
    email: string,
    firstName: string,
    lastName: string,
    fullName: string,
    profilePicture: Option<string>,
    userType: string,
    address: Option<Address>)

  function Project(u: User, address: Option<Address>): (p: Projection)
    ensures p.id == u.id && p.username == u.username && p.email == u.email && p.userType == u.userType
    ensures p.firstName == u.firstName && p.lastName == u.lastName && p.profilePicture == u.profilePicture
    ensures IsStripOf(u.firstName + " " + u.lastName, p.fullName)
    ensures p.address == address
  {
    Projection(u.id, u.username, u.email, u.firstName, u.lastName, FullName(u.firstName, u.lastName),
               u.profilePicture, u.userType, address)
  }
}
