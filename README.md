# Accounts service: a verified Dafny model

This project models the `accounts` app of a Django REST service with patient and doctor
accounts, and proves properties of the model. The service works like this:

- Signup validates a request with a nested address and creates a user, its address and a role
  profile. It then issues an authentication token.
- Login checks credentials and returns the caller's token and dashboard URL.
- Two dashboards admit only callers of their own role, compared case-insensitively.
- A middleware exempts `/api/` paths from CSRF checks.

Files:

- `wrappers.dfy`: `Option` and `Result`.
- `text.dfy`: the string operations the service relies on.
  - `str.strip()` is defined declaratively (`IsStripOf`), and `Strip` is proved to be its unique solution.
  - `str.lower()` and case-insensitive comparison.
  - `startswith` and digits.
- `models.dfy`: the records, the role choices, the pincode rule and column widths, and the `__str__` forms.
- `store.dfy`: the database as a class `AccountStore`.
  - It holds the users, addresses, patients, doctors and tokens tables as `map`/`set` fields.
  - `Valid()` is what the schema enforces: keys, the unique username index, one-to-one foreign keys and the pincode width.
  - `Complete()` adds the table invariant the model's signup keeps: distinct emails, and each user has an address and exactly the profile its role selects.
    The distinct-emails part holds in the model only, because the model stores emails unnormalised (see "## Left out").
  - Methods: the inserts, token get-or-create and the cascading delete.
- `serializers.dfy`: the signup pipeline, `create`, the login check, and the dashboard projection with `full_name`.
  - The pipeline runs the framework's per-field checks, gathered into `serializer.errors`. The object-level `validate` runs only once every field has passed.
- `views.dfy`: the signup and login endpoints as methods on the store, and the two dashboards as functions of the authenticated caller.
- `middleware.dfy`: `DisableCSRFForAPI.process_request`, on a `Request` object whose flag it sets in place.

Parameters stand in for outside behaviour:

- Django's password policy: `validatePassword`.
- The password hasher: `makePassword`.
- `authenticate`, constrained by `ReturnsStoredUser` / `SoundAuthentication` over a `checkPassword` parameter.
- The generated token key: `freshKey`.

Database integrity errors are preconditions of the insert methods. Every caller proves them, so
no modelled path raises one. The service has one such path that the model lacks, because the
model does not normalise usernames (see "## Left out"). Token keys are the token table's primary key. `Valid()` keeps them
distinct, and a caller of `GetOrCreateToken` must supply a key no other user holds (`KeyUsable`):
the generated key is assumed fresh.

Every text field of the two serializers is a `CharField`, which strips surrounding whitespace
before its blank test and its validators run. The views apply that trim (`TrimRequest`,
`TrimField`) to what the client sent, and the serializer functions receive the trimmed values.
The role is a `ChoiceField` and the picture an `ImageField`; neither is trimmed.

Each of those `CharField`s then runs its validators and collects every message: the field's own
validators first, then `ProhibitNullCharactersValidator` ("Null characters are not allowed.")
(`RunValidators`). A value with U+0000 is therefore refused at field level, at signup and at login.
The surrogate-character validator never fires in the model, because a Dafny `char` is never a
surrogate.

The model follows the code on these points:

- A password/confirmation mismatch is reported under `password` only when every field passed.
  Otherwise the field errors alone are reported. A mismatch of the trimmed values is always refused
  either way: `SignupRefusesMismatch`. A password and a confirmation that differ only by
  surrounding whitespace, of any length on either side, are no mismatch: `PaddedConfirmationMatches`.
- `first_name`, `last_name` and `email` must be present but may be blank. The model columns are
  `blank=True`, and `extra_kwargs` only makes them required.
- A taken username is refused by the unique validator the framework derives from the unique
  index, with "A user with that username already exists.". It is never refused by
  `validate_username`, whose message ("this username") cannot reach a client.
- `create` is three separate inserts with no transaction around them. `Valid()` holds between the
  inserts, and `Complete()` only after all three.

## Model

| member | source | states |
|---|---|---|
| Text.Strip | accounts/serializers.py:115 | the result is the stripped form of the input: no whitespace at either end, and what is cut off is whitespace only |
| Text.Lower | accounts/views.py:64-65 | the result has the same length, each character mapped by the ASCII lower-case mapping |
| Text.StripUnique | accounts/serializers.py:115 | `strip()` is well defined: a string has at most one stripped form, so `Strip` computes exactly it |
| Text.StripPrependSpace | accounts/serializers.py:115 | whitespace in front of a string does not change its stripped form |
| Text.StripAppendSpace | accounts/serializers.py:115 | whitespace after a string does not change its stripped form |
| Text.StripAppendSpaces | accounts/serializers.py:115 | a run of whitespace of any length after a string does not change its stripped form |
| Text.StripPrependSpaces | accounts/serializers.py:115 | a run of whitespace of any length in front of a string does not change its stripped form |
| Text.StripPadded | accounts/serializers.py:115 | whitespace padding of any length on both sides does not change the stripped form |
| Text.StripUnpadded | accounts/serializers.py:115 | a string with no whitespace at either end strips to itself |
| Text.LowerEqualsIff | accounts/views.py:64-65 | comparing `t.lower()` with a lower-case word holds exactly when `t` equals the word ignoring case |
| Models.UserTypeChoicesAre | accounts/models.py:8-13 | the role values are exactly "patient" and "doctor", and each fits the 10-character column |
| Models.MatchesPincodePattern | accounts/models.py:33 | an accepted pincode has 5 to 10 characters, all ASCII digits, so it fits the 10-character column; a refused one of that length has a non-digit |
| Models.PincodeExamples | accounts/models.py:33 | 4 and 12 digits are refused, 5 and 10 digits accepted, a letter among digits refused |
| Models.UserStrDeterminesUserType | accounts/models.py:21-22 | for one username, the user string form determines the role |
| Models.UserStr | accounts/models.py:21-22 | the user string form is the username, then the role in parentheses |
| Models.AddressStr | accounts/models.py:41-42 | the address string form starts with line1 and a comma and ends with " - " and the pincode |
| Models.PatientStr | accounts/models.py:54-55 | the patient string form is "Patient: " followed by the username |
| Models.DoctorStr | accounts/models.py:67-68 | the doctor string form is "Doctor: " followed by the username |
| Models.ProfileStrsDistinguish | accounts/models.py:54-68 | a patient's and a doctor's string forms never coincide, and each determines the username |
| Store.AccountStore.constructor | accounts/models.py:6-68 | the empty database satisfies every table invariant |
| Store.AccountStore.InsertUser | accounts/serializers.py:60-63 | `create_user` adds exactly the row built from the keyword arguments under a fresh id, active, and keeps the schema invariant; a taken username cannot be inserted |
| Store.AccountStore.InsertAddress | accounts/serializers.py:66 | adds the one address of a user that has none, nothing else changes |
| Store.AccountStore.InsertPatient | accounts/serializers.py:70 | adds the user's patient profile, nothing else changes |
| Store.AccountStore.InsertDoctor | accounts/serializers.py:72 | adds the user's doctor profile, nothing else changes |
| Store.AccountStore.GetOrCreateToken | accounts/views.py:23 | an existing token is returned unchanged; otherwise the generated key, held by no other user, is stored and returned; token keys stay distinct |
| Store.AccountStore.DeleteUser | accounts/models.py:27-60 | deleting a user cascades to its address, profiles and token, and keeps both invariants |
| Store.CompleteMeansOneProfile | accounts/serializers.py:68-72 | in a complete store every user has an address and exactly one of the two profiles |
| Store.SignupKeepsTablesComplete | accounts/serializers.py:54-74 | adding a user with an unused email, its address and the profile its role selects keeps the tables complete |
| Serializers.TrimField | accounts/serializers.py:16-17 | a `CharField` value is present exactly when submitted, and is then the stripped form of what was sent |
| Serializers.TrimAddress | accounts/serializers.py:7-11 | the nested address keeps its presence and each of its four text fields is trimmed |
| Serializers.TrimRequest | accounts/serializers.py:14-32 | every text field of the signup request is trimmed; the role and the picture are kept as sent |
| Serializers.WhitespaceOnlyIsBlank | accounts/serializers.py:16-17 | a value of whitespace only reaches the blank test as the empty string |
| Serializers.PaddedConfirmationMatches | accounts/serializers.py:16-17 | a password and a confirmation that differ only by whitespace padding of any length on either side are equal once trimmed |
| Serializers.PaddedPincodeTrimmed | accounts/serializers.py:7-11 | a valid pincode padded with whitespace of any length on either side reaches the pincode validators as the bare digits |
| Serializers.Gather | accounts/serializers.py:23-27 | the gathered errors hold exactly the failing fields, each with its own messages, and no other key |
| Serializers.GatherEmptyIff | accounts/serializers.py:23-27 | no error is gathered exactly when every field passed |
| Serializers.RequiredNonBlank | accounts/serializers.py:16-17 | a required non-blankable field passes its empty-value test exactly when present and non-empty, else "required" or "blank" |
| Serializers.RunValidators | accounts/serializers.py:16-17 | a `CharField`'s validators pass exactly when its own report nothing and the value has no null character; otherwise all messages are reported, its own first and "Null characters are not allowed." last |
| Serializers.PresentField | accounts/serializers.py:28-32 | a required but blankable field passes exactly when present and free of null characters, else "required" or the null-character message |
| Serializers.NonBlankField | accounts/serializers.py:16-17 | a required text field passes exactly when present, non-empty and free of null characters, else "required", "blank" or the null-character message |
| Serializers.BoundedField | accounts/models.py:28-30 | accepted exactly when present, non-empty, within the column's max length and free of null characters, and then as submitted; a value that is too long gets the max-length message first |
| Serializers.CheckPincode | accounts/models.py:31-34 | accepted exactly when present, matching `^\d{5,10}$` and free of null characters; a non-blank value that does not match is reported with "Pincode must be 5-10 digits" first, one longer than 10 also with the max-length message |
| Serializers.CheckAddress | accounts/serializers.py:7-11 | accepted exactly when present with every field present, non-blank, within its column and free of null characters and a valid pincode; the accepted address is the submitted one; a missing address is "required", a bad pincode is reported under "pincode" |
| Serializers.ValidateEmail | accounts/serializers.py:42-46 | refused exactly when a stored user has that email, with its message |
| Serializers.ValidateUsername | accounts/serializers.py:48-52 | refused exactly when a stored user has that username, with its message |
| Serializers.CheckUsername | accounts/serializers.py:48-52 | accepted exactly when present, non-empty, not taken and free of null characters, and then as submitted; a taken one gets the unique validator's message first |
| Serializers.CheckEmail | accounts/serializers.py:42-46 | accepted exactly when present, not taken and free of null characters, and then as submitted; a null character is reported instead of `validate_email`, which then does not run |
| Serializers.CheckPassword | accounts/serializers.py:16 | accepted exactly when present, non-empty, free of null characters and the password policy reports nothing, and then as submitted; otherwise the policy's messages are reported |
| Serializers.CheckUserType | accounts/serializers.py:19 | accepted exactly when the value is one of the role choices |
| Serializers.SignupFieldsDistinct | accounts/serializers.py:23-27 | the declared field names are pairwise distinct |
| Serializers.SignupFieldOutcomes | accounts/serializers.py:23-27 | one outcome per declared field, in declaration order, each its own check's result, with distinct keys |
| Serializers.SignupFieldsAllPass | accounts/serializers.py:23-27 | every field outcome passed exactly when every field check passes |
| Serializers.FieldErrors | accounts/serializers.py:14-32 | field errors are empty exactly when every field passes; a failing username, email or password is reported under its own key with its messages |
| Serializers.ValidatedAttrs | accounts/serializers.py:14-32 | the validated data satisfies everything `create` and the database need: untaken username and email, a role choice, a valid pincode, the submitted passwords |
| Serializers.ValidatedAttrsCarryRequest | accounts/serializers.py:14-32 | the validated data holds the submitted user fields and address |
| Serializers.UserKwargs | accounts/serializers.py:56-58 | the keyword arguments are the validated data without the address and both passwords, every other entry kept |
| Serializers.KwargsKeepUserRow | accounts/serializers.py:56-63 | popping the address and both passwords leaves the user row `create_user` builds unchanged |
| Serializers.CreatedUserIsSubmitted | accounts/serializers.py:54-63 | the row created from validated data is exactly the submitted fields, active, with the hashed submitted password |
| Serializers.SignupRowIsNew | accounts/serializers.py:42-72 | the created row's email is unused and its role is a valid choice, the one `create` branches on |
| Serializers.FieldValidation | accounts/serializers.py:14-32 | succeeds exactly when every field passes, with the validated data; otherwise fails with the field errors |
| Serializers.Validate | accounts/serializers.py:34-40 | passes the data through exactly when password and confirmation match, else the mismatch error keyed "password" |
| Serializers.SignupValidation | accounts/serializers.py:14-40 | succeeds exactly when every field passes and the confirmation equals the password, yielding creatable data that carries the submitted values |
| Serializers.SignupAccepts | accounts/serializers.py:14-52 | a request with every field present and well formed and free of null characters, unused username and email, a policy-clean matching password, a role choice and a valid address is accepted |
| Serializers.SignupRefusesMismatch | accounts/serializers.py:34-40 | a mismatched confirmation is always refused, and is the only error once every field passes |
| Serializers.SignupRefusesTakenEmail | accounts/serializers.py:42-46 | a taken email is always refused under "email", with `validate_email`'s message when it has no null character |
| Serializers.SignupRefusesTakenUsername | accounts/serializers.py:48-52 | a taken username is always refused under "username", with the unique validator's message first, and alone when it has no null character |
| Serializers.Create | accounts/serializers.py:54-74 | inserts the user built from the data without address and passwords, its address, and the profile its role selects, and nothing else |
| Serializers.LoginValidate | accounts/serializers.py:82-96 | success only with both credentials non-empty and an active user returned by `authenticate`; every failure carries one of the three messages |
| Serializers.AuthenticatedMeansRightPassword | accounts/serializers.py:87-89 | a user that sound authentication returns is stored under that username and its password matched |
| Serializers.LoginFailuresIndistinguishable | accounts/serializers.py:86-89 | an unknown username and a wrong password get the same error |
| Serializers.LoginOutcomes | accounts/serializers.py:82-96 | missing credentials give "Must include"; an authenticated inactive user gives "disabled", an active one succeeds |
| Serializers.LoginValidation | accounts/serializers.py:77-96 | succeeds exactly when both fields pass their checks (present, non-blank, free of null characters) and `validate` succeeds; a failing field is reported under its own key; `validate`'s message goes under "non_field_errors" |
| Serializers.MissingCredentialsNeverReported | accounts/serializers.py:93-94 | behind the required-field checks the "Must include" message never reaches a client |
| Serializers.FullName | accounts/serializers.py:113-115 | the full name is the stripped form of first name, space, last name |
| Serializers.Project | accounts/serializers.py:99-115 | the dashboard data copies the user's fields and the address, and its full name is the stripped joined names |
| Serializers.FullNameJoinsNames | accounts/serializers.py:115 | names without surrounding whitespace are joined by exactly one space |
| Serializers.FullNameWithoutLastName | accounts/serializers.py:115 | an empty last name leaves the stripped first name, no trailing space |
| Serializers.FullNameWithoutFirstName | accounts/serializers.py:115 | an empty first name leaves the stripped last name, no leading space |
| Serializers.FullNameOfFirstNameOnly | accounts/serializers.py:115 | an unpadded first name with an empty last name gives the first name itself |
| Serializers.FullNameOfBlankNames | accounts/serializers.py:115 | names of whitespace only give an empty full name |
| Views.RedirectUrl | accounts/views.py:45 | the redirect is an `/api/` path that embeds the role and ends in "/dashboard/" |
| Views.RedirectUrlExamples | accounts/views.py:45 | the two roles' redirects are "/api/patient/dashboard/" and "/api/doctor/dashboard/" |
| Views.RoleGated | accounts/views.py:57-79 | 401 exactly for anonymous callers; 200 with the caller's profile exactly when the role matches ignoring case; 403 echoing the raw role and username otherwise |
| Views.PatientDashboard | accounts/views.py:54-79 | the role gate with role "patient" and the patient messages |
| Views.DoctorDashboard | accounts/views.py:84-109 | the role gate with role "doctor" and the doctor messages |
| Views.AtMostOneDashboardAdmits | accounts/views.py:64-95 | no caller is admitted by both dashboards; an empty role is refused by both |
| Views.PatientDashboardIgnoresCase | accounts/views.py:63-65 | a stored "Patient" is admitted to the patient dashboard |
| Views.DoctorDashboardIgnoresCase | accounts/views.py:93-95 | a stored "DOCTOR" is admitted to the doctor dashboard |
| Views.PatientRefusedByDoctorDashboard | accounts/views.py:95-103 | a patient calling the doctor dashboard gets 403 naming its role "patient" and its username |
| Views.Register | accounts/views.py:22-29 | saving validated data adds exactly the user row under the next id, its address, its role's profile and a new token, answers 201 with that user's profile, and keeps both invariants |
| Views.SignupView | accounts/views.py:18-30 | validation sees the trimmed request; invalid request: 400 with the serializer errors and the database untouched; valid: the submitted user under the next id, its address, role profile and a new token are stored, 201 with the user's profile; both invariants kept |
| Views.LoginView | accounts/views.py:34-47 | validation sees the trimmed username and password; invalid: 400 and tokens untouched; valid: the stored user, its existing or new token, and the redirect to its role's dashboard |
| Views.LoginTwice | accounts/views.py:39 | logging in twice gives the same answer, the same token included |
| Middleware.IsApiPath | accounts/middleware.py:10 | a path is an API path exactly when it is "/api/" followed by the rest of it |
| Middleware.ApiPathExamples | accounts/middleware.py:10 | "/api/" paths are exempt; "/api", "/apix/", "/API/" and "/admin/" are not |
| Middleware.ProcessRequest | accounts/middleware.py:8-12 | never answers; sets the exemption flag exactly on `/api/` paths and leaves other requests unchanged |
| Middleware.ProcessRequestTwice | accounts/middleware.py:8-12 | running the middleware twice sets the same flag as once |

## Left out

- The `UserListView`, its filters, search and ordering; admin registration; URL routing. They are not part of signup, login, the dashboards or the middleware.
- Email and username normalisation by `create_user`. `normalize_email` lower-cases the domain and `normalize_username` applies NFKC. The model stores the submitted (trimmed) strings, and uniqueness is checked by exact match, as `validate_email` and the unique validator do.
  - The distinct-emails conjunct of `Complete()` therefore holds in the model only. In the service, two signups with "ann@Example.com" both pass `validate_email`, and both store "ann@example.com".
  - Likewise a username equal to a stored one only after NFKC (such as "ﬁle" against "file") passes the unique validator, and `create_user` then fails on the unique index with an integrity error.
- Django's username character and length validators, the other `AbstractUser` column widths, and the email format check. These are framework validators around the modelled checks. The "exactly when" contracts of `CheckUsername`, `CheckEmail`, `PresentField` and `SignupAccepts` are exact only for the modelled validators. A value that one of these refuses, such as a username with a space or an email without "@", is accepted by the model.
- An explicit JSON `null` for any field, which the framework refuses with "This field may not be null.". The request model has only a submitted string or an absent key (`None`).
- Image validation and storage for the profile picture. A picture is modelled as a file name.
- Timestamps (`created_at`, `updated_at`). They are clock reads, and the projection omits them.
- Random salt in password hashing. `makePassword` is a deterministic function parameter.
- Database integrity errors. Every insert's preconditions rule them out, and the token key is a parameter required to be unused.
- Store.AccountStore.GetOrCreateToken: does not model key generation; the key is the `freshKey` parameter.
- Views.PatientDashboard: the framework's `IsAuthenticated` permission answers an anonymous caller before the view body runs, with its own message. Its status depends on the first configured authentication class, which the repository does not show: 401 when `TokenAuthentication` comes first, 403 when `SessionAuthentication` does. The model gives the view body's 401 and message.
- Views.DoctorDashboard: same as Views.PatientDashboard for the permission check.
- Text.Lower: lower-cases ASCII letters only, not the full Unicode mapping of `str.lower()`.
- Models.MatchesPincodePattern: `\d` is read as ASCII digits. Python's `$` also matches before a final newline; the model does not.
- The order of keys in the serializer's error dictionary. Errors are a map.
- Concurrency between requests. Each endpoint runs alone on the store.
