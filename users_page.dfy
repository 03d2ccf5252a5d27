/** The users list page: its filters, built from three selects and one text input. */
module UsersPage {
  import opened Common
  import opened Foreign
  import opened Entities
  import Subgraph
  import UseUsers

  /** The `filters` object, built by conditional assignments. */
  method Filters(isOrganizerFilter: string, emailVerifiedFilter: string, kycStatusFilter: string,
                 referrerFilter: string, toNumber: string -> JsNumber)
    returns (f: UserFilters)
    ensures f.isOrganizer.Some? <==> isOrganizerFilter != "all"
    ensures f.isOrganizer.Some? ==> (f.isOrganizer.value <==> isOrganizerFilter == "true")
    ensures f.emailVerified.Some? <==> emailVerifiedFilter != "all"
    ensures f.emailVerified.Some? ==> (f.emailVerified.value <==> emailVerifiedFilter == "true")
    ensures f.kycStatus.Some? <==> kycStatusFilter != "all"
    ensures f.kycStatus.Some? ==> f.kycStatus.value == toNumber(kycStatusFilter)
    ensures f.referrer == (if referrerFilter != "" then Some(referrerFilter) else None)
  {
    f := UserFilters(None, None, None, None);
    if isOrganizerFilter != "all" {
      f := f.(isOrganizer := Some(isOrganizerFilter == "true"));
    }
    if emailVerifiedFilter != "all" {
      f := f.(emailVerified := Some(emailVerifiedFilter == "true"));
    }
    if kycStatusFilter != "all" {
      f := f.(kycStatus := Some(toNumber(kycStatusFilter)));
    }
    if referrerFilter != "" {
      f := f.(referrer := Some(referrerFilter));
    }
  }

  /** The variables of one page as the page requests it: a KYC status of "0" (Not Started) is a
      filter like any other, and reaches the subgraph as the number `Number("0")`. */
  method PageVariables(isOrganizerFilter: string, emailVerifiedFilter: string, kycStatusFilter: string,
                       referrerFilter: string, toNumber: string -> JsNumber, pageParam: nat, pageSize: nat)
    returns (v: Subgraph.QueryVariables)
    ensures v.first == pageSize && v.skip == pageParam && v.orderBy == "registeredAt"
    ensures v.where.Some? <==>
              isOrganizerFilter != "all" || emailVerifiedFilter != "all" ||
              kycStatusFilter != "all" || referrerFilter != ""
    ensures v.where.Some? ==>
              var w := v.where.value;
              w.Keys <= {"isOrganizer", "emailVerified", "kycStatus", "referrer"} &&
              ("referrer" in w <==> referrerFilter != "") &&
              (referrerFilter != "" ==> w["referrer"] == Subgraph.StringValue(Subgraph.NormalizeAddress(referrerFilter))) &&
              ("kycStatus" in w <==> kycStatusFilter != "all") &&
              (kycStatusFilter != "all" ==> w["kycStatus"] == Subgraph.NumberValue(toNumber(kycStatusFilter))) &&
              ("isOrganizer" in w <==> isOrganizerFilter != "all") &&
              (isOrganizerFilter != "all" ==> w["isOrganizer"] == Subgraph.BoolValue(isOrganizerFilter == "true")) &&
              ("emailVerified" in w <==> emailVerifiedFilter != "all") &&
              (emailVerifiedFilter != "all" ==>
                 w["emailVerified"] == Subgraph.BoolValue(emailVerifiedFilter == "true"))
  {
    var f := Filters(isOrganizerFilter, emailVerifiedFilter, kycStatusFilter, referrerFilter, toNumber);
    v := Subgraph.UsersVariables(f, Some(UseUsers.PageRequest(pageParam, pageSize)));
  }
}
