/** user.service.ts: the signed-in user's profile, persisted under `user:profile`,
    and the greeting shown with it. */
module User {
  import opened Js
  import opened Records
  import opened Storage

  const DefaultProfile := UserProfile("Shihab Rahman", "https://i.pravatar.cc/150", Some("shihab@example.com"))

  /** A `Partial<UserProfile>`: None leaves a field out. `email: Some(None)` is an
      update that sets the optional email to undefined. */
  datatype Patch = Patch(name: Option<string>, profileImage: Option<string>, email: Option<Option<string>>)

  /** `{ ...current, ...updates }`. */
  function Merge(current: UserProfile, updates: Patch): (r: UserProfile)
    ensures updates.name.Some? ==> r.name == updates.name.value
    ensures updates.name.None? ==> r.name == current.name
    ensures updates.profileImage.Some? ==> r.profileImage == updates.profileImage.value
    ensures updates.profileImage.None? ==> r.profileImage == current.profileImage
    ensures updates.email.Some? ==> r.email == updates.email.value
    ensures updates.email.None? ==> r.email == current.email
  {
    UserProfile(
      if updates.name.Some? then updates.name.value else current.name,
      if updates.profileImage.Some? then updates.profileImage.value else current.profileImage,
      if updates.email.Some? then updates.email.value else current.email)
  }

  /** An empty update changes nothing, and applying the same update twice is applying it once. */
  lemma MergeLaws(current: UserProfile, updates: Patch)
    ensures Merge(current, Patch(None, None, None)) == current
    ensures Merge(Merge(current, updates), updates) == Merge(current, updates)
  {
  }

  /** `getGreeting()` for the local hour of the clock. */
  function Greeting(hour: int): (g: string)
    ensures hour < 12 <==> g == "Good Morning"
    ensures 12 <= hour < 18 <==> g == "Good Afternoon"
    ensures 18 <= hour <==> g == "Good Evening"
  {
    if hour < 12 then "Good Morning"
    else if hour < 18 then "Good Afternoon"
    else "Good Evening"
  }

  class UserService {
    const store: LocalStorage
    /** The `userProfile` signal. */
    var profile: UserProfile

    /** The service starts on the default profile and loads the stored one. */
    constructor (store: LocalStorage)
      modifies store`entries
      ensures this.store == store
      ensures Parse(Get(old(store.entries), UserProfileKey)).Parsed?
                && old(store.entries)[UserProfileKey].ProfileJson? ==>
                profile == old(store.entries)[UserProfileKey].profile && store.entries == old(store.entries)
      ensures Parse(Get(old(store.entries), UserProfileKey)).Empty? ==>
                profile == DefaultProfile
                && store.entries == if store.writable then old(store.entries)[UserProfileKey := ProfileJson(DefaultProfile)] else old(store.entries)
      ensures !Parse(Get(old(store.entries), UserProfileKey)).Empty?
                && !(Parse(Get(old(store.entries), UserProfileKey)).Parsed? && old(store.entries)[UserProfileKey].ProfileJson?) ==>
                profile == DefaultProfile && store.entries == old(store.entries)
    {
      this.store := store;
      this.profile := DefaultProfile;
      new;
      LoadProfile();
    }

    /** `saveProfile(p)`: the profile changes only when the write went through. */
    method SaveProfile(p: UserProfile)
      modifies this`profile, store`entries
      ensures store.writable ==> store.entries == old(store.entries)[UserProfileKey := ProfileJson(p)] && profile == p
      ensures !store.writable ==> store.entries == old(store.entries) && profile == old(profile)
    {
      var ok := store.SetItem(UserProfileKey, ProfileJson(p));
      if ok {
        profile := p;
      }
    }

    /** `loadProfile()`: a stored profile wins; nothing stored persists the default;
        anything unreadable falls back to the default without writing. */
    method LoadProfile()
      modifies this`profile, store`entries
      ensures old(Parse(Get(store.entries, UserProfileKey))).Parsed? && old(store.entries[UserProfileKey]).ProfileJson? ==>
                profile == old(store.entries[UserProfileKey]).profile && store.entries == old(store.entries)
      ensures old(Parse(Get(store.entries, UserProfileKey))).Empty? ==>
                store.entries == (if store.writable then old(store.entries)[UserProfileKey := ProfileJson(DefaultProfile)] else old(store.entries))
                && profile == (if store.writable then DefaultProfile else old(profile))
      ensures !old(Parse(Get(store.entries, UserProfileKey))).Empty?
                && !(old(Parse(Get(store.entries, UserProfileKey))).Parsed? && old(store.entries[UserProfileKey]).ProfileJson?) ==>
                profile == DefaultProfile && store.entries == old(store.entries)
    {
      var stored := store.GetItem(UserProfileKey);
      match Parse(stored)
      case Parsed(ProfileJson(p)) => profile := p;
      case Empty => SaveProfile(DefaultProfile);
      case _ => profile := DefaultProfile;
    }

    /** `updateProfile(updates)`: merge into the current profile and save. */
    method UpdateProfile(updates: Patch)
      modifies this`profile, store`entries
      ensures store.writable ==>
                profile == Merge(old(profile), updates)
                && store.entries == old(store.entries)[UserProfileKey := ProfileJson(Merge(old(profile), updates))]
      ensures !store.writable ==> profile == old(profile) && store.entries == old(store.entries)
    {
      SaveProfile(Merge(profile, updates));
    }
  }
}
