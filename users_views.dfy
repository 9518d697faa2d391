/** users/views.py: the vendor application guard, the admin approval endpoint
    and the user statistics. */
module UserViews {
  import opened Basics
  import opened CommonUtils
  import opened Users
  import opened UserSerializers

  /** VendorApplicationView.create: a user with a profile gets 400 and nothing
      changes; otherwise the application is created. */
  method ApplyForVendor(accounts: Accounts, user: UserId, profileId: nat,
                        a: VendorApplication, now: Time) returns (reply: Reply)
    requires accounts.Valid() && user in accounts.users && profileId !in accounts.vendorProfiles
    modifies accounts
    ensures accounts.Valid()
    ensures old(accounts.HasVendorProfile(user)) <==> reply.status == 400
    ensures reply.status == 400 ==>
      reply.message == "You already have a vendor application."
      && accounts.users == old(accounts.users) && accounts.vendorProfiles == old(accounts.vendorProfiles)
    ensures reply.status != 400 ==>
      reply.status == 201
      && accounts.users == old(accounts.users)[user := old(accounts.users[user]).(role := Vendor)]
      && accounts.vendorProfiles == old(accounts.vendorProfiles)[profileId := NewVendorProfile(user, a, now)]
    ensures accounts.addresses == old(accounts.addresses)
  {
    if accounts.HasVendorProfile(user) {
      return Reply(400, "You already have a vendor application.");
    }
    CreateVendorApplication(accounts, user, profileId, a, now);
    reply := Reply(201, "");
  }

  /** The profile after the approve branch. */
  function Approved(p: VendorProfile, admin: UserId, now: Time): (r: VendorProfile)
    ensures r.approvalDate == Some(now) && r.approvedBy == Some(admin) && r.rejectionReason == ""
    ensures r.(approvalDate := p.approvalDate, approvedBy := p.approvedBy, rejectionReason := p.rejectionReason) == p
  {
    p.(approvalDate := Some(now), approvedBy := Some(admin), rejectionReason := "")
  }

  /** The profile after the reject branch. */
  function Rejected(p: VendorProfile, reason: string): (r: VendorProfile)
    ensures r.approvalDate.None? && r.approvedBy.None? && r.rejectionReason == reason
    ensures r.(approvalDate := p.approvalDate, approvedBy := p.approvedBy, rejectionReason := p.rejectionReason) == p
  {
    p.(approvalDate := None, approvedBy := None, rejectionReason := reason)
  }

  /** VendorApprovalView.update. `action` and `reason` are the request fields
      (reason defaults to ""); a missing profile is the 404 of get_object. */
  method ApproveOrReject(accounts: Accounts, profileId: nat, action: Option<string>,
                         reason: string, admin: UserId, now: Time) returns (reply: Reply)
    requires accounts.Valid()
    modifies accounts
    ensures accounts.Valid()
    ensures accounts.addresses == old(accounts.addresses)
    ensures profileId !in old(accounts.vendorProfiles) ==>
      reply.status == 404 && accounts.users == old(accounts.users)
      && accounts.vendorProfiles == old(accounts.vendorProfiles)
    ensures profileId in old(accounts.vendorProfiles) ==>
      var p := old(accounts.vendorProfiles[profileId]);
      var u := old(accounts.users[p.user]);
      if action == Some("approve") then
        reply.status == 200
        && accounts.users == old(accounts.users)[p.user := SaveUser(u.(vendorApproved := true))]
        && accounts.vendorProfiles == old(accounts.vendorProfiles)[profileId := Approved(p, admin, now)]
      else if action == Some("reject") then
        reply.status == 200
        && accounts.users == old(accounts.users)[p.user := SaveUser(u.(vendorApproved := false))]
        && accounts.vendorProfiles == old(accounts.vendorProfiles)[profileId := Rejected(p, reason)]
      else
        reply == Reply(400, "Invalid action. Use \"approve\" or \"reject\".")
        && accounts.users == old(accounts.users) && accounts.vendorProfiles == old(accounts.vendorProfiles)
  {
    if profileId !in accounts.vendorProfiles {
      return Reply(404, "Not found.");
    }
    var p := accounts.vendorProfiles[profileId];
    var u := accounts.users[p.user];
    if action == Some("approve") {
      accounts.SaveUserRow(p.user, u.(vendorApproved := true));
      accounts.vendorProfiles := accounts.vendorProfiles[profileId := Approved(p, admin, now)];
      reply := Reply(200, "Vendor approved successfully.");
    } else if action == Some("reject") {
      accounts.SaveUserRow(p.user, u.(vendorApproved := false));
      accounts.vendorProfiles := accounts.vendorProfiles[profileId := Rejected(p, reason)];
      reply := Reply(200, "Vendor rejected successfully.");
    } else {
      reply := Reply(400, "Invalid action. Use \"approve\" or \"reject\".");
    }
  }

  /** Approval always leaves the user approved; rejection leaves it unapproved
      unless the user is an ADMIN, whom User.save re-approves. */
  lemma ApprovalOutcome(u: User)
    ensures SaveUser(u.(vendorApproved := true)).vendorApproved
    ensures SaveUser(u.(vendorApproved := false)).vendorApproved <==> u.role == Admin
  {
  }

  datatype UserStats = UserStats(
    totalUsers: nat, customers: nat, vendors: nat, approvedVendors: nat, pendingVendors: nat)

  function WithRole(users: map<UserId, User>, role: Role): set<UserId> {
    set k | k in users && users[k].role == role
  }

  function VendorsApproved(users: map<UserId, User>, approved: bool): set<UserId> {
    set k | k in users && users[k].role == Vendor && users[k].vendorApproved == approved
  }

  /** user_stats: five counts over the user table. */
  function Stats(users: map<UserId, User>): (s: UserStats)
    ensures s.totalUsers == |users|
    ensures users == map[] ==> s == UserStats(0, 0, 0, 0, 0)
  {
    UserStats(
      |users.Keys|,
      |WithRole(users, Customer)|,
      |WithRole(users, Vendor)|,
      |VendorsApproved(users, true)|,
      |VendorsApproved(users, false)|)
  }

  /** Approved and pending vendors split the vendors, and customers and vendors
      together are at most all users. */
  lemma StatsAddUp(users: map<UserId, User>)
    ensures Stats(users).approvedVendors + Stats(users).pendingVendors == Stats(users).vendors
    ensures Stats(users).customers + Stats(users).vendors <= Stats(users).totalUsers
  {
    var approved := VendorsApproved(users, true);
    var pending := VendorsApproved(users, false);
    var vendors := WithRole(users, Vendor);
    var customers := WithRole(users, Customer);
    assert vendors == approved + pending && approved * pending == {};
    assert customers * vendors == {};
    assert customers + vendors <= users.Keys;
    SubsetCard(customers + vendors, users.Keys);
  }
}
