/** users/models.py: users with a role and a vendor-approval flag, vendor
    profiles, and addresses with at most one default per user and type. */
module Users {
  import opened Basics
  import opened Text
  import opened CommonUtils

  datatype User = User(
    email: string,
    firstName: string,
    lastName: string,
    role: Role,
    isSuperuser: bool,
    vendorApproved: bool,
    phone: string)

  /** User.full_name */
  function FullName(u: User): (r: string)
    ensures r == [] || (!IsSpace(r[0]) && !IsSpace(r[|r| - 1]))
  {
    Strip(u.firstName + " " + u.lastName)
  }

  /** Two names without surrounding blanks are joined by one space. */
  lemma FullNameOfBothNames(u: User)
    requires u.firstName != [] && u.lastName != []
    requires !IsSpace(u.firstName[0]) && !IsSpace(u.lastName[|u.lastName| - 1])
    ensures FullName(u) == u.firstName + " " + u.lastName
  {
    var s := u.firstName + " " + u.lastName;
    assert s[0] == u.firstName[0];
    assert StripLeft(s) == s;
    assert s[|s| - 1] == u.lastName[|u.lastName| - 1];
    assert StripRight(s) == s;
  }

  /** With a last name and no first name the stray separator is stripped. */
  lemma FullNameWithoutFirstName(u: User)
    requires u.firstName == [] && u.lastName != []
    requires !IsSpace(u.lastName[0]) && !IsSpace(u.lastName[|u.lastName| - 1])
    ensures FullName(u) == u.lastName
  {
    var s := " " + u.lastName;
    assert StripLeft(s[1..]) == u.lastName;
    assert "" + " " + u.lastName == s;
  }

  predicate IsAdmin(u: User)
    ensures u.isSuperuser ==> IsAdmin(u)
    ensures IsAdmin(u) && !u.isSuperuser ==> u.role == Admin
  { u.role == Admin || u.isSuperuser }
  predicate IsVendor(u: User)
    ensures IsVendor(u) ==> u.vendorApproved && u.role != Customer && u.role != Admin
  { u.role == Vendor && u.vendorApproved }
  predicate IsCustomer(u: User)
    ensures IsCustomer(u) ==> !IsVendor(u) && (IsAdmin(u) <==> u.isSuperuser)
  { u.role == Customer }

  /** The three role properties: an approved vendor is neither customer nor (unless
      superuser) admin, and an unapproved vendor is none of the three. */
  lemma RolePropertiesDisjoint(u: User)
    ensures IsVendor(u) ==> !IsCustomer(u) && (IsAdmin(u) <==> u.isSuperuser)
    ensures IsCustomer(u) ==> !IsVendor(u)
    ensures u.role == Vendor && !u.vendorApproved ==> !IsVendor(u) && !IsCustomer(u)
  {
  }

  /** User.save: an ADMIN is always stored as vendor-approved; any other role
      keeps its flag. */
  function SaveUser(u: User): (r: User)
    ensures r.role == Admin ==> r.vendorApproved
    ensures r.role != Admin ==> r.vendorApproved == u.vendorApproved
    ensures r.(vendorApproved := u.vendorApproved) == u
  {
    if u.role == Admin then u.(vendorApproved := true) else u
  }

  lemma SaveUserIdempotent(u: User)
    ensures SaveUser(SaveUser(u)) == SaveUser(u)
  {
  }

  datatype AddressType = Billing | Shipping

  datatype Address = Address(
    user: UserId,
    kind: AddressType,
    firstName: string,
    lastName: string,
    company: string,
    line1: string,
    line2: string,
    city: string,
    state: string,
    postalCode: string,
    country: string,
    phone: string,
    isDefault: bool)

  datatype VendorProfile = VendorProfile(
    user: UserId,
    businessName: string,
    businessDescription: string,
    businessAddress: string,
    businessPhone: string,
    businessEmail: string,
    taxId: string,
    website: string,
    applicationDate: Time,
    approvalDate: Option<Time>,
    approvedBy: Option<UserId>,
    rejectionReason: string)

  /** At most one default address per (user, type). */
  ghost predicate OneDefaultPerKind(addresses: map<nat, Address>) {
    forall i, j :: i in addresses && j in addresses && i != j
      && addresses[i].isDefault && addresses[j].isDefault
      ==> addresses[i].user != addresses[j].user || addresses[i].kind != addresses[j].kind
  }

  /** The queryset update of Address.save: `is_default=False` on every address of
      that user and type. */
  function ClearDefaults(addresses: map<nat, Address>, user: UserId, kind: AddressType): (r: map<nat, Address>)
    ensures r.Keys == addresses.Keys
    ensures forall k :: k in r ==>
      if addresses[k].user == user && addresses[k].kind == kind
      then r[k] == addresses[k].(isDefault := false)
      else r[k] == addresses[k]
  {
    map k | k in addresses ::
      if addresses[k].user == user && addresses[k].kind == kind
      then addresses[k].(isDefault := false) else addresses[k]
  }

  /** The address table after Address.save of `a` under key `id`. */
  function AddressesAfterSave(addresses: map<nat, Address>, id: nat, a: Address): map<nat, Address> {
    (if a.isDefault then ClearDefaults(addresses, a.user, a.kind) else addresses)[id := a]
  }

  /** Saving a default address leaves it the only default of its user and type. */
  lemma SaveDefaultIsOnlyDefault(addresses: map<nat, Address>, id: nat, a: Address)
    requires a.isDefault
    ensures var r := AddressesAfterSave(addresses, id, a);
      r[id].isDefault
      && forall k :: k in r && k != id && r[k].user == a.user && r[k].kind == a.kind ==> !r[k].isDefault
  {
  }

  /** Saving a non-default address changes no other address. */
  lemma SaveNonDefaultTouchesNothingElse(addresses: map<nat, Address>, id: nat, a: Address)
    requires !a.isDefault
    ensures var r := AddressesAfterSave(addresses, id, a);
      forall k :: k in addresses && k != id ==> k in r && r[k] == addresses[k]
  {
  }

  /** Address.save keeps "at most one default per user and type". */
  lemma SaveKeepsOneDefault(addresses: map<nat, Address>, id: nat, a: Address)
    requires OneDefaultPerKind(addresses)
    ensures OneDefaultPerKind(AddressesAfterSave(addresses, id, a))
  {
    var r := AddressesAfterSave(addresses, id, a);
    forall i, j | i in r && j in r && i != j && r[i].isDefault && r[j].isDefault
      ensures r[i].user != r[j].user || r[i].kind != r[j].kind
    {
      if i != id && j != id {
        assert r[i] == addresses[i] && r[j] == addresses[j];
      }
    }
  }

  /** The users app's tables. */
  class Accounts {
    var users: map<UserId, User>
    var addresses: map<nat, Address>
    var vendorProfiles: map<nat, VendorProfile>

    ghost predicate Valid()
      reads this
    {
      OneDefaultPerKind(addresses)
      && (forall k :: k in vendorProfiles ==> vendorProfiles[k].user in users)
      && (forall i, j :: i in vendorProfiles && j in vendorProfiles && i != j
            ==> vendorProfiles[i].user != vendorProfiles[j].user)
    }

    constructor ()
      ensures Valid() && users == map[] && addresses == map[] && vendorProfiles == map[]
    {
      users, addresses, vendorProfiles := map[], map[], map[];
    }

    /** User.save on the row `id`. */
    method SaveUserRow(id: UserId, u: User)
      requires Valid()
      modifies this
      ensures Valid()
      ensures users == old(users)[id := SaveUser(u)]
      ensures addresses == old(addresses) && vendorProfiles == old(vendorProfiles)
    {
      users := users[id := SaveUser(u)];
    }

    /** Address.save on the row `id`. */
    method SaveAddress(id: nat, a: Address)
      requires Valid()
      modifies this
      ensures Valid()
      ensures addresses == AddressesAfterSave(old(addresses), id, a)
      ensures users == old(users) && vendorProfiles == old(vendorProfiles)
    {
      SaveKeepsOneDefault(addresses, id, a);
      if a.isDefault {
        addresses := ClearDefaults(addresses, a.user, a.kind);
      }
      addresses := addresses[id := a];
    }

    /** `hasattr(user, 'vendor_profile')` */
    predicate HasVendorProfile(user: UserId)
      reads this
    {
      exists k :: k in vendorProfiles && vendorProfiles[k].user == user
    }
  }
}
