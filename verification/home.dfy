/**
  The landing page: the approved services, the first three of them as
  featured providers (with an avatar letter), their number as the "Active
  Services" figure, and at most eight categories.
 */
module Home {
  import opened Options
  import opened Seqs

  datatype ServiceStatus = Pending | Approved | Rejected

  /** The provider's profile joined to a service; the join may be missing,
      and so may the name in it. */
  datatype Profile = Profile(fullName: Option<string>, avatarUrl: Option<string>, location: Option<string>)

  datatype Service = Service(
    id: string,
    providerId: string,
    categoryId: string,
    title: string,
    description: string,
    pricePerHour: real,
    location: string,
    status: ServiceStatus,
    profiles: Option<Profile>)

  datatype Category = Category(id: string, name: string, description: string, icon: string)

  predicate IsApproved(s: Service) {
    s.status == Approved
  }

  /** `approvedServices`: only approved services, and every approved one. */
  function ApprovedServices(services: seq<Service>): (r: seq<Service>)
    ensures |r| <= |services|
    ensures forall i :: 0 <= i < |r| ==> r[i] in services && r[i].status == Approved
    ensures forall i :: 0 <= i < |services| && services[i].status == Approved ==> services[i] in r
  {
    Filter(services, IsApproved)
  }

  /** `featuredProviders`: the first three approved services. */
  function FeaturedProviders(services: seq<Service>): (r: seq<Service>)
    ensures |r| <= 3 && r <= ApprovedServices(services)
    ensures forall i :: 0 <= i < |r| ==> r[i] in services && r[i].status == Approved
  {
    Take(ApprovedServices(services), 3)
  }

  /** The categories shown: the first eight. */
  function ShownCategories(categories: seq<Category>): (r: seq<Category>)
    ensures |r| <= 8 && r <= categories
  {
    Take(categories, 8)
  }

  /** The number shown as "Active Services": never more than the services,
      and zero when none is approved. */
  function ActiveServicesCount(services: seq<Service>): (n: nat)
    ensures n <= |services|
    ensures (forall s :: s in services ==> s.status != Approved) ==> n == 0
  {
    var a := ApprovedServices(services);
    assert a != [] ==> a[0] in services && a[0].status == Approved;
    |a|
  }

  /** The number of approved services in a list, counted one by one. */
  function CountApproved(services: seq<Service>): nat {
    if services == [] then 0
    else (if IsApproved(services[0]) then 1 else 0) + CountApproved(services[1..])
  }

  /** `approvedServices` holds the approved services and nothing else, each as
      often as it occurs and in the original order. */
  lemma ApprovedServicesSpec(services: seq<Service>)
    ensures var r := ApprovedServices(services);
      (forall i :: 0 <= i < |r| ==> r[i].status == Approved) &&
      IsSubsequence(r, services) &&
      (forall s :: multiset(r)[s] == if s.status == Approved then multiset(services)[s] else 0)
  {
    FilterExactly(services, IsApproved);
  }

  /** The "Active Services" figure counts the approved services. */
  lemma {:induction false} ActiveServicesCountsApproved(services: seq<Service>)
    ensures ActiveServicesCount(services) == CountApproved(services)
  {
    if services != [] {
      ActiveServicesCountsApproved(services[1..]);
    }
  }

  /** The featured providers are the first min(3, n) approved services, where
      n is the number of approved services. */
  lemma FeaturedProvidersSpec(services: seq<Service>)
    ensures var a := ApprovedServices(services);
      var f := FeaturedProviders(services);
      |f| == (if |a| < 3 then |a| else 3) && f == a[..|f|] &&
      forall i :: 0 <= i < |f| ==> f[i].status == Approved
  {
  }

  /** At most eight categories are shown, and they are the first ones. */
  lemma ShownCategoriesSpec(categories: seq<Category>)
    ensures var c := ShownCategories(categories);
      |c| <= 8 && c == categories[..|c|] && (|categories| >= 8 ==> |c| == 8)
  {
  }

  /** `service.profiles?.full_name?.charAt(0) || "?"`: the first character of
      the provider's name, or "?" when the profile or the name is missing or
      the name is empty. */
  function AvatarLetter(s: Service): (r: string)
    ensures |r| == 1
    ensures (s.profiles.None? || s.profiles.value.fullName.None? || s.profiles.value.fullName.value == "") ==> r == "?"
    ensures (s.profiles.Some? && s.profiles.value.fullName.Some? && s.profiles.value.fullName.value != "") ==>
      r == [s.profiles.value.fullName.value[0]]
  {
    match s.profiles
    case None => "?"
    case Some(p) =>
      match p.fullName
      case None => "?"
      case Some(name) => if name == "" then "?" else [name[0]]
  }
}
