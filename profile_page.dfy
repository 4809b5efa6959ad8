/**
 * The profile page (apps/web/app/profile/page.tsx): the order in which the
 * page decides between loading, error, missing profile and the profile
 * itself, and the list of joined projects it shows.
 */
module ProfilePage {
  import opened Model
  import opened Api
  import opened Cache

  datatype ProfileView =
    | Loading
    | Failed(message: string)
    | NoProfile
    | Shown(profile: ProfileData, joined: seq<Project>)

  /**
   * Either query loading wins over any error; the profile's error message
   * wins over the projects' one; a missing profile comes next; otherwise the
   * profile is shown with the projects it has joined.
   */
  function ProfilePageView(profile: QueryState<ProfileData>, projects: QueryState<seq<Project>>): (v: ProfileView)
    ensures v.Loading? <==> profile.isLoading || projects.isLoading
    ensures v.Failed? <==>
              !profile.isLoading && !projects.isLoading && (profile.error.Some? || projects.error.Some?)
    ensures v.Failed? ==> v.message == if profile.error.Some? then profile.error.value else projects.error.value
    ensures v.NoProfile? <==>
              !profile.isLoading && !projects.isLoading && profile.error.None? && projects.error.None?
              && profile.data.None?
    ensures v.Shown? ==> profile.data == Some(v.profile)
    ensures v.Shown? ==>
              forall p :: p in v.joined <==> p in projects.data.GetOr([]) && p.id in v.profile.joinedProjects
  {
    if profile.isLoading || projects.isLoading then Loading
    else if profile.error.Some? || projects.error.Some? then
      Failed(if profile.error.Some? then profile.error.value else projects.error.value)
    else if profile.data.None? then NoProfile
    else Shown(profile.data.value, JoinedProjects(projects.data.GetOr([]), profile.data.value.joinedProjects))
  }

  /** "No projects joined" is shown exactly when no listed project is among the profile's. */
  lemma NoProjectsJoined(projects: seq<Project>, joined: seq<string>)
    ensures JoinedProjects(projects, joined) == [] <==> forall p :: p in projects ==> p.id !in joined
  {
    var r := JoinedProjects(projects, joined);
    if r != [] {
      assert r[0] in r;
    }
  }

  /**
   * The page lists the same projects, in the same order, as the invitee
   * entries `fetchUserProfile` builds for the profile.
   */
  lemma ShownMatchesInvitees(
    projects: seq<Project>, profile: UserProfile, invitations: InvitationTable, people: seq<Assignee>)
    ensures var data := FetchUserProfile(projects, profile, invitations, people);
            var v := ProfilePageView(QueryState(false, None, Some(data)), QueryState(false, None, Some(projects)));
            && v.Shown?
            && |v.joined| == |data.invitedUsers|
            && forall i :: 0 <= i < |v.joined| ==>
                 v.joined[i].id == data.invitedUsers[i].projectId && v.joined[i].name == data.invitedUsers[i].projectName
  {
  }
}
