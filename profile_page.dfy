/** The `Profile` page: loads the signed-in user's profile into a form of
    three optional fields and writes the submitted values back to that
    user's row only. The clock and the database's failures are parameters. */
module ProfilePage {
  import opened Domain

  /** The form's values (`first_name`, `last_name`, `skills_description`);
      an empty field is `""`. */
  datatype ProfileForm = ProfileForm(firstName: string, lastName: string, skills: string)

  /** A name is either left empty or at least two characters long. */
  predicate NameValid(s: string)
  {
    s == "" || |s| >= 2
  }

  /** The form passes validation iff both names do; the skills text is free. */
  predicate FormValid(f: ProfileForm)
  {
    NameValid(f.firstName) && NameValid(f.lastName)
  }

  /** Only a one-character name is refused. */
  lemma NameRule(s: string)
    ensures NameValid(s) <==> |s| != 1
  {
  }

  const EmptyForm: ProfileForm := ProfileForm("", "", "")

  /** The untouched form is valid: every field may stay empty. */
  lemma EmptyFormValid()
    ensures FormValid(EmptyForm)
  {
  }

  /** `value || ""`: a missing (null) column becomes the empty field. */
  function OrEmpty(s: Option<string>): (r: string)
    ensures s.None? ==> r == ""
    ensures s.Some? ==> r == s.value
  {
    if s.Some? then s.value else ""
  }

  /** The form filled from a stored profile. */
  function FormOf(p: Profile): (f: ProfileForm)
    ensures f.firstName == OrEmpty(p.firstName) && f.lastName == OrEmpty(p.lastName)
    ensures f.skills == OrEmpty(p.skills)
  {
    ProfileForm(OrEmpty(p.firstName), OrEmpty(p.lastName), OrEmpty(p.skills))
  }

  /** The stored profile after the form is written back at time `now`. */
  function Updated(p: Profile, f: ProfileForm, now: string): (q: Profile)
    ensures q.firstName == Some(f.firstName) && q.lastName == Some(f.lastName)
    ensures q.skills == Some(f.skills) && q.updatedAt == Some(now)
    ensures q.subscription == p.subscription
  {
    p.(firstName := Some(f.firstName), lastName := Some(f.lastName), skills := Some(f.skills),
       updatedAt := Some(now))
  }

  /** Saving the loaded form unchanged loses nothing: reading it back gives
      the same form. */
  lemma SaveLoadRoundTrip(p: Profile, f: ProfileForm, now: string)
    ensures FormOf(Updated(p, f, now)) == f
  {
  }

  /** The page's state and the `profiles` table it reads and writes. */
  class Page {
    var user: Option<UserId>
    var loading: bool
    var isSubmitting: bool
    var form: ProfileForm
    var profiles: map<UserId, Profile>

    constructor (profiles: map<UserId, Profile>)
      ensures user.None? && loading && !isSubmitting && form == EmptyForm
      ensures this.profiles == profiles
    {
      user := None;
      loading := true;
      isSubmitting := false;
      form := EmptyForm;
      this.profiles := profiles;
    }

    /** `fetchProfile`: for a signed-in user whose row loads, the form shows
        that row; a missing row is an error and leaves the form as it was. */
    method FetchProfile(authUser: Option<UserId>, fetchFails: bool)
      modifies this`user, this`form, this`loading
      ensures !loading
      ensures authUser.Some? ==> user == authUser
      ensures authUser.None? ==> user == old(user)
      ensures authUser.Some? && !fetchFails && authUser.value in profiles ==>
                form == FormOf(profiles[authUser.value])
      ensures authUser.None? || fetchFails || authUser.value !in profiles ==> form == old(form)
    {
      if authUser.Some? {
        user := authUser;
        var id := authUser.value;
        if !fetchFails && id in profiles {
          form := FormOf(profiles[id]);
        }
      }
      loading := false;
    }

    /** Submitting `values` at time `now`; `updateFails` is the database
        rejecting the update. Nothing happens while the form is hidden
        (loading) or its button disabled (submitting), for invalid values or
        without a user; otherwise only the user's row changes, and only if it
        exists. */
    method Submit(values: ProfileForm, now: string, updateFails: bool)
      modifies this`profiles, this`isSubmitting
      ensures var accepted := !loading && !old(isSubmitting) && FormValid(values) && user.Some?;
              (!accepted ==> profiles == old(profiles) && isSubmitting == old(isSubmitting))
              && (accepted ==> !isSubmitting)
              && (accepted && !updateFails && user.value in old(profiles) ==>
                    profiles == old(profiles)[user.value := Updated(old(profiles)[user.value], values, now)])
              && (accepted && (updateFails || user.value !in old(profiles)) ==> profiles == old(profiles))
      ensures profiles.Keys == old(profiles).Keys
      ensures forall u :: u in old(profiles) && Some(u) != user ==> profiles[u] == old(profiles)[u]
    {
      if loading || isSubmitting || !FormValid(values) || user.None? {
        return;
      }
      isSubmitting := true;
      var id := user.value;
      if !updateFails && id in profiles {
        profiles := profiles[id := Updated(profiles[id], values, now)];
      }
      isSubmitting := false;
    }
  }
}
