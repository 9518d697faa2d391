/** common/permissions.py: the five DRF permission classes as predicates over the
    request method and the requesting user. */
module Permissions {
  import opened Basics
  import opened CommonUtils

  /** `request.user`: Django's AnonymousUser, or an authenticated User with the
      two fields the permission classes read. */
  datatype Requester =
    | Anonymous
    | Member(id: UserId, role: Role, vendorApproved: bool)
  {
    predicate IsAuthenticated()
      ensures IsAuthenticated() <==> this != Anonymous
    { Member? }
  }

  /** permissions.SAFE_METHODS */
  predicate IsSafeMethod(verb: string)
    ensures IsSafeMethod(verb) ==> verb !in {"POST", "PUT", "PATCH", "DELETE"}
  {
    verb == "GET" || verb == "HEAD" || verb == "OPTIONS"
  }

  /** `obj.x == request.user`: an anonymous user equals no row's user, and a
      null foreign key equals no user. */
  predicate IsSameUser(owner: Option<UserId>, who: Requester)
    ensures who.Anonymous? || owner.None? ==> !IsSameUser(owner, who)
  {
    who.Member? && owner == Some(who.id)
  }

  /** IsOwnerOrReadOnly.has_object_permission; `owner` is `obj.user`. */
  predicate OwnerObjectPermission(verb: string, who: Requester, owner: Option<UserId>)
    ensures IsSafeMethod(verb) ==> OwnerObjectPermission(verb, who, owner)
    ensures !IsSafeMethod(verb) ==> (OwnerObjectPermission(verb, who, owner) <==> IsSameUser(owner, who))
  {
    IsSafeMethod(verb) || IsSameUser(owner, who)
  }

  /** IsVendorOrReadOnly.has_permission */
  predicate VendorPermission(verb: string, who: Requester)
    ensures IsSafeMethod(verb) ==> VendorPermission(verb, who)
    ensures !IsSafeMethod(verb) && VendorPermission(verb, who) ==>
      who.Member? && who.role == Vendor && who.vendorApproved
    ensures who.Member? && who.role == Vendor && who.vendorApproved ==> VendorPermission(verb, who)
  {
    IsSafeMethod(verb)
    || (who.IsAuthenticated() && who.role == Vendor && who.vendorApproved)
  }

  /** IsVendorOrReadOnly.has_object_permission; `vendor` is `obj.vendor`, None
      when the object has no such attribute. */
  predicate VendorObjectPermission(verb: string, who: Requester, vendor: Option<UserId>)
    ensures IsSafeMethod(verb) ==> VendorObjectPermission(verb, who, vendor)
    ensures !IsSafeMethod(verb) && VendorObjectPermission(verb, who, vendor) ==>
      IsSameUser(vendor, who) && who.role == Vendor && who.vendorApproved
    ensures IsSameUser(vendor, who) && who.role == Vendor && who.vendorApproved ==>
      VendorObjectPermission(verb, who, vendor)
  {
    IsSafeMethod(verb)
    || (vendor.Some? && IsSameUser(vendor, who) && who.role == Vendor && who.vendorApproved)
  }

  /** IsAdminOrReadOnly.has_permission */
  predicate AdminOrReadOnlyPermission(verb: string, who: Requester)
    ensures IsSafeMethod(verb) ==> AdminOrReadOnlyPermission(verb, who)
    ensures !IsSafeMethod(verb) && AdminOrReadOnlyPermission(verb, who) ==> who.Member? && who.role == Admin
    ensures who.Member? && who.role == Admin ==> AdminOrReadOnlyPermission(verb, who)
  {
    IsSafeMethod(verb) || (who.IsAuthenticated() && who.role == Admin)
  }

  /** IsAdminOnly.has_permission: the method plays no part. */
  predicate AdminOnlyPermission(verb: string, who: Requester)
    ensures AdminOnlyPermission(verb, who) ==> who.Member? && who.role == Admin
    ensures who.Member? && who.role == Admin ==> AdminOnlyPermission(verb, who)
  {
    who.IsAuthenticated() && who.role == Admin
  }

  /** IsCustomerOrReadOnly.has_permission */
  predicate CustomerPermission(verb: string, who: Requester)
    ensures IsSafeMethod(verb) ==> CustomerPermission(verb, who)
    ensures !IsSafeMethod(verb) && CustomerPermission(verb, who) ==> who.Member? && who.role != Vendor
    ensures who.Member? && (who.role == Customer || who.role == Admin) ==> CustomerPermission(verb, who)
  {
    IsSafeMethod(verb)
    || (who.IsAuthenticated() && (who.role == Customer || who.role == Admin))
  }

  /** Every "...OrReadOnly" class lets any reader through, anonymous or not. */
  lemma ReadsAlwaysGranted(verb: string, who: Requester, owner: Option<UserId>)
    requires IsSafeMethod(verb)
    ensures OwnerObjectPermission(verb, who, owner)
    ensures VendorPermission(verb, who) && VendorObjectPermission(verb, who, owner)
    ensures AdminOrReadOnlyPermission(verb, who) && CustomerPermission(verb, who)
  {
  }

  /** Writes as an anonymous user are refused by every class. */
  lemma AnonymousCannotWrite(verb: string, owner: Option<UserId>)
    requires !IsSafeMethod(verb)
    ensures !OwnerObjectPermission(verb, Anonymous, owner)
    ensures !VendorPermission(verb, Anonymous) && !VendorObjectPermission(verb, Anonymous, owner)
    ensures !AdminOrReadOnlyPermission(verb, Anonymous) && !CustomerPermission(verb, Anonymous)
    ensures !AdminOnlyPermission(verb, Anonymous)
  {
  }

  /** The vendor object check is stricter than the vendor view check. */
  lemma VendorObjectImpliesView(verb: string, who: Requester, vendor: Option<UserId>)
    ensures VendorObjectPermission(verb, who, vendor) ==> VendorPermission(verb, who)
  {
  }

  /** For a write, the object check holds exactly when the view check holds and
      the object belongs to the requester. */
  lemma VendorObjectWrite(verb: string, who: Requester, vendor: Option<UserId>)
    requires !IsSafeMethod(verb)
    ensures VendorObjectPermission(verb, who, vendor)
            <==> VendorPermission(verb, who) && IsSameUser(vendor, who)
  {
  }

  /** IsAdminOnly grants exactly what IsAdminOrReadOnly grants to writers, and it
      grants reads to admins only. */
  lemma AdminOnlyIsAdminWrite(verb: string, who: Requester)
    ensures AdminOnlyPermission(verb, who) <==> AdminOrReadOnlyPermission("POST", who)
    ensures AdminOnlyPermission(verb, who) ==> AdminOrReadOnlyPermission(verb, who)
    ensures AdminOnlyPermission(verb, who) ==> CustomerPermission(verb, who)
  {
  }
}
