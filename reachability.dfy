/** Which pages each kind of visitor can reach through the route table:
    no role, the role `Farmer`, the role `Officer`, or any other role. */
module Reachability {

  import opened Wrappers
  import opened Gate
  import opened Routes

  /** Pages shown to a visitor without a usable role. */
  const GuestView: map<string, Page> := map["/" := Home, "/login" := Login]

  /** Pages shown to a role that no route singles out. */
  const MemberView: map<string, Page> := map[
    "/" := Home,
    "/login" := Login,
    "/about" := ProjectInfo,
    "/technical" := TechnicalInfo,
    "/contact" := Contact,
    "/search" := SearchPage,
    "/weather" := WeatherPage
  ]

  /** Pages shown to the role `Farmer`. */
  const FarmerView: map<string, Page> := map[
    "/" := Home,
    "/login" := Login,
    "/about" := ProjectInfo,
    "/technical" := TechnicalInfo,
    "/contact" := Contact,
    "/search" := SearchPage,
    "/weather" := WeatherPage,
    "/query" := QueryPage,
    "/community" := CommunityForum,
    "/onboarding" := Onboarding,
    "/profile" := Profile,
    "/store" := Store,
    "/checkout" := Checkout
  ]

  /** Pages shown to the role `Officer`. */
  const OfficerView: map<string, Page> := map[
    "/" := Home,
    "/login" := Login,
    "/about" := ProjectInfo,
    "/technical" := TechnicalInfo,
    "/contact" := Contact,
    "/search" := SearchPage,
    "/weather" := WeatherPage,
    "/dashboard" := Dashboard
  ]

  /** The outcome of a path under a view: the page it maps to, or home. */
  function Shown(view: map<string, Page>, path: string): (r: Outcome<Page>)
  {
    if path in view then Render(view[path]) else Redirect(HomePath, true)
  }

  /** Under the policy a visitor without a usable role sees the guest
      view, and is asked to log in for every other declared path. */
  lemma GuestViewIsPolicy(stored: Option<string>, path: string)
    requires !Truthy(stored)
    ensures Expected(stored, path) ==
              if path in Policy && path !in GuestView then Redirect(LoginPath, true)
              else Shown(GuestView, path)
  {
  }

  /** Under the policy `Farmer` sees exactly the farmer view. */
  lemma FarmerViewIsPolicy(path: string)
    ensures Expected(Some("Farmer"), path) == Shown(FarmerView, path)
  {
  }

  /** Under the policy `Officer` sees exactly the officer view. */
  lemma OfficerViewIsPolicy(path: string)
    ensures Expected(Some("Officer"), path) == Shown(OfficerView, path)
  {
  }

  /** Under the policy any other non-empty role sees the member view. */
  lemma MemberViewIsPolicy(role: string, path: string)
    requires role != "" && role != "Farmer" && role != "Officer"
    ensures Expected(Some(role), path) == Shown(MemberView, path)
  {
  }

  /** Without a usable role (none stored, or the empty string) only the
      home and login pages show; every other declared path asks for a
      login and every undeclared path goes home. */
  lemma GuestReach(stored: Option<string>)
    requires !Truthy(stored)
    ensures forall path :: Resolve(stored, path) ==
                             if path in Policy && path !in GuestView then Redirect(LoginPath, true)
                             else Shown(GuestView, path)
  {
    forall path ensures Resolve(stored, path) ==
                          if path in Policy && path !in GuestView then Redirect(LoginPath, true)
                          else Shown(GuestView, path)
    {
      ResolveFollowsPolicy(stored, path);
      GuestViewIsPolicy(stored, path);
    }
  }

  /** `Farmer` reaches every page except the officer dashboard, which
      sends it home. */
  lemma FarmerReach()
    ensures forall path :: Resolve(Some("Farmer"), path) == Shown(FarmerView, path)
  {
    forall path ensures Resolve(Some("Farmer"), path) == Shown(FarmerView, path) {
      ResolveFollowsPolicy(Some("Farmer"), path);
      FarmerViewIsPolicy(path);
    }
  }

  /** `Officer` reaches the open pages and the dashboard; every
      farmer-only page sends it home. */
  lemma OfficerReach()
    ensures forall path :: Resolve(Some("Officer"), path) == Shown(OfficerView, path)
  {
    forall path ensures Resolve(Some("Officer"), path) == Shown(OfficerView, path) {
      ResolveFollowsPolicy(Some("Officer"), path);
      OfficerViewIsPolicy(path);
    }
  }

  /** Any other non-empty role, including a differently cased `farmer`,
      reaches only the pages that need no particular role. */
  lemma OtherRoleReach(role: string)
    requires role != "" && role != "Farmer" && role != "Officer"
    ensures forall path :: Resolve(Some(role), path) == Shown(MemberView, path)
  {
    forall path ensures Resolve(Some(role), path) == Shown(MemberView, path) {
      ResolveFollowsPolicy(Some(role), path);
      MemberViewIsPolicy(role, path);
    }
  }

  /** The home and login pages show for every stored role, none included. */
  lemma PublicPagesAlwaysShow(stored: Option<string>)
    ensures Resolve(stored, "/") == Render(Home)
    ensures Resolve(stored, "/login") == Render(Login)
  {
  }
}
