/** users/serializers.py: registration, profile updates with read-only role
    fields, and the vendor application that turns a user into a vendor. */
module UserSerializers {
  import opened Basics
  import opened CommonUtils
  import opened Users

  /** What UserRegistrationSerializer accepts. */
  datatype Registration = Registration(
    email: string,
    firstName: string,
    lastName: string,
    password: string,
    passwordConfirm: string,
    phone: string)

  /** UserRegistrationSerializer.validate */
  function ValidateRegistration(r: Registration): (v: Verdict)
    ensures v.Accept? <==> r.password == r.passwordConfirm
    ensures v.Reject? ==> v.message == "Passwords don't match."
  {
    if r.password != r.passwordConfirm then Reject("Passwords don't match.") else Accept
  }

  /** The user row `create_user(**validated_data)` builds once `password_confirm`
      and `password` have been popped: model defaults for everything else. */
  function NewUser(r: Registration): (u: User)
    ensures u.email == r.email && u.firstName == r.firstName && u.lastName == r.lastName
    ensures u.phone == r.phone
    ensures u.role == Customer && !u.vendorApproved && !u.isSuperuser
  {
    SaveUser(User(r.email, r.firstName, r.lastName, Customer, false, false, r.phone))
  }

  /** Two registrations that differ only in their passwords create the same row. */
  lemma NewUserIgnoresPasswords(r: Registration, password: string, confirm: string)
    ensures NewUser(r.(password := password, passwordConfirm := confirm)) == NewUser(r)
  {
  }

  /** What a registration request ends in. */
  datatype RegistrationOutcome =
    | Refused(message: string)
    | Created(user: User)
    | TypeErrorRaised

  /** UserRegistrationSerializer.create as written. User sets `username = None` and
      declares no manager, so `User.objects` is AbstractUser's UserManager, whose
      `create_user(username, email=None, password=None, **extra_fields)` takes
      `username` as a required positional argument. `create_user(**validated_data)`
      passes only keyword fields without it, so every valid registration raises
      TypeError before any row is written. */
  function RegistrationAsWritten(r: Registration): (o: RegistrationOutcome)
    ensures o.Refused? <==> r.password != r.passwordConfirm
    ensures o.Refused? ==> o.message == "Passwords don't match."
    ensures !o.Created?
  {
    match ValidateRegistration(r)
    case Reject(m) => Refused(m)
    case Accept => TypeErrorRaised
  }

  /** The evidently intended outcome: either refused by validation or the new row. */
  function RegistrationIntended(r: Registration): (o: RegistrationOutcome)
    ensures o.Refused? <==> r.password != r.passwordConfirm
    ensures o.Created? ==> o.user == NewUser(r) && o.user.role == Customer
    ensures !o.TypeErrorRaised?
  {
    match ValidateRegistration(r)
    case Reject(m) => Refused(m)
    case Accept => Created(NewUser(r))
  }

  /** The two agree on every refused registration and part on every accepted one:
      as written no registration ever creates a user. */
  lemma RegistrationNeverCreates(r: Registration)
    ensures r.password == r.passwordConfirm <==>
      (RegistrationAsWritten(r) == TypeErrorRaised && RegistrationIntended(r) == Created(NewUser(r)))
    ensures r.password != r.passwordConfirm ==> RegistrationAsWritten(r) == RegistrationIntended(r)
  {
  }

  /** Registration as evidently intended (the as-written code raises, see
      RegistrationAsWritten): validation, then the new row under the id chosen
      by the database. */
  method Register(accounts: Accounts, id: UserId, r: Registration) returns (v: Verdict)
    requires accounts.Valid() && id !in accounts.users
    modifies accounts
    ensures accounts.Valid()
    ensures v == ValidateRegistration(r)
    ensures v.Accept? <==> RegistrationIntended(r) == Created(NewUser(r))
    ensures accounts.users == if v.Accept? then old(accounts.users)[id := NewUser(r)] else old(accounts.users)
    ensures accounts.addresses == old(accounts.addresses)
    ensures accounts.vendorProfiles == old(accounts.vendorProfiles)
  {
    v := ValidateRegistration(r);
    if v.Accept? {
      accounts.SaveUserRow(id, User(r.email, r.firstName, r.lastName, Customer, false, false, r.phone));
    }
  }

  /** The writable fields of UserSerializer; `role` and `vendorApproved` are sent
      by the client but are read-only and dropped. */
  datatype ProfilePatch = ProfilePatch(
    email: Option<string>,
    firstName: Option<string>,
    lastName: Option<string>,
    phone: Option<string>,
    role: Option<Role>,
    vendorApproved: Option<bool>)

  function Patched<T>(old_: T, new_: Option<T>): T {
    if new_.Some? then new_.value else old_
  }

  /** A profile update through UserSerializer, followed by User.save. */
  function UpdateProfile(u: User, p: ProfilePatch): (r: User)
    ensures r.role == u.role
    ensures r.vendorApproved == (u.vendorApproved || u.role == Admin)
    ensures r.email == Patched(u.email, p.email) && r.phone == Patched(u.phone, p.phone)
    ensures r.firstName == Patched(u.firstName, p.firstName)
    ensures r.lastName == Patched(u.lastName, p.lastName)
  {
    SaveUser(u.(email := Patched(u.email, p.email),
                firstName := Patched(u.firstName, p.firstName),
                lastName := Patched(u.lastName, p.lastName),
                phone := Patched(u.phone, p.phone)))
  }

  /** No patch can promote a customer, whatever role or flag it carries. */
  lemma PatchCannotPromote(u: User, p: ProfilePatch)
    requires u.role == Customer
    ensures UpdateProfile(u, p).role == Customer
    ensures UpdateProfile(u, p).vendorApproved == u.vendorApproved
  {
  }

  /** The fields of VendorApplicationSerializer. */
  datatype VendorApplication = VendorApplication(
    businessName: string,
    businessDescription: string,
    businessAddress: string,
    businessPhone: string,
    businessEmail: string,
    taxId: string,
    website: string)

  function NewVendorProfile(user: UserId, a: VendorApplication, now: Time): (p: VendorProfile)
    ensures p.user == user && p.applicationDate == now
    ensures p.approvalDate.None? && p.approvedBy.None? && p.rejectionReason == ""
    ensures p.businessName == a.businessName && p.businessEmail == a.businessEmail
  {
    VendorProfile(user, a.businessName, a.businessDescription, a.businessAddress,
                  a.businessPhone, a.businessEmail, a.taxId, a.website, now, None, None, "")
  }

  /** VendorApplicationSerializer.create: role becomes VENDOR (User.save runs),
      the approval flag is left as it was, and one profile is inserted. */
  method CreateVendorApplication(accounts: Accounts, user: UserId, profileId: nat,
                                 a: VendorApplication, now: Time)
    requires accounts.Valid() && user in accounts.users
    requires profileId !in accounts.vendorProfiles && !accounts.HasVendorProfile(user)
    modifies accounts
    ensures accounts.Valid()
    ensures user in accounts.users
    ensures accounts.users == old(accounts.users)[user := old(accounts.users[user]).(role := Vendor)]
    ensures accounts.users[user].vendorApproved == old(accounts.users[user].vendorApproved)
    ensures accounts.vendorProfiles == old(accounts.vendorProfiles)[profileId := NewVendorProfile(user, a, now)]
    ensures accounts.addresses == old(accounts.addresses)
  {
    var u := accounts.users[user];
    accounts.SaveUserRow(user, u.(role := Vendor));
    accounts.vendorProfiles := accounts.vendorProfiles[profileId := NewVendorProfile(user, a, now)];
  }
}
