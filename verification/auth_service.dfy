/** The client-side authentication service of client/lib/services/auth.ts:
    how a signed-in identity and its profile row become an `AuthUser`, how a
    profile update is merged and packed for the database, what the
    deprecated password calls answer, and where an avatar is stored. The
    identity provider and database answers arrive as parameters. */
module AuthService {
  import opened Text

  // ---------------------------------------------------------------------
  // Records

  datatype Theme = Light | Dark | System

  /** A preferences object; a key may be absent. */
  datatype Preferences = Preferences(notifications: Option<bool>, theme: Option<Theme>, newsletter: Option<bool>)

  const NoPreferences := Preferences(None, None, None)

  const DefaultPreferences := Preferences(Some(true), Some(System), Some(false))

  /** A `user_profiles` row; every column may be null. */
  datatype ProfileRow = ProfileRow(
    name: Option<string>,
    role: Option<string>,
    profileComplete: Option<bool>,
    verified: Option<bool>,
    phone: Option<string>,
    avatarUrl: Option<string>,
    organizationName: Option<string>,
    bio: Option<string>,
    preferences: Option<Preferences>,
    createdAt: Option<string>,
    updatedAt: Option<string>)

  datatype Metadata = Metadata(name: Option<string>, role: Option<string>)

  /** The identity the auth provider reports for the session. */
  datatype Identity = Identity(id: string, email: Option<string>, metadata: Option<Metadata>)

  datatype AuthUser = AuthUser(
    id: string,
    email: string,
    name: string,
    role: string,
    profileComplete: bool,
    verified: bool,
    phone: Option<string>,
    avatarUrl: Option<string>,
    organizationName: Option<string>,
    bio: Option<string>,
    preferences: Preferences,
    createdAt: string,
    updatedAt: string)

  // ---------------------------------------------------------------------
  // JavaScript truthiness of optional strings

  /** A string value that `||` keeps: present and non-empty. */
  predicate Truthy(o: Option<string>) {
    o.Some? && o.value != ""
  }

  function OrElse(o: Option<string>, fallback: string): string {
    if Truthy(o) then o.value else fallback
  }

  /** `x || undefined`: an empty string is dropped. */
  function DropEmpty(o: Option<string>): (r: Option<string>)
    ensures r.Some? <==> Truthy(o)
    ensures r.Some? ==> r == o
  {
    if Truthy(o) then o else None
  }

  /** The text columns of a profile row. */
  datatype Column = NameColumn | RoleColumn | PhoneColumn | AvatarUrlColumn | OrganizationNameColumn
                  | BioColumn | CreatedAtColumn | UpdatedAtColumn

  /** `profileData?.<column>` */
  function ProfileField(profile: Option<ProfileRow>, c: Column): Option<string> {
    if profile.None? then None
    else
      var p := profile.value;
      match c
      case NameColumn => p.name
      case RoleColumn => p.role
      case PhoneColumn => p.phone
      case AvatarUrlColumn => p.avatarUrl
      case OrganizationNameColumn => p.organizationName
      case BioColumn => p.bio
      case CreatedAtColumn => p.createdAt
      case UpdatedAtColumn => p.updatedAt
  }

  /** `user.user_metadata?.name` */
  function MetadataName(identity: Identity): Option<string> {
    if identity.metadata.Some? then identity.metadata.value.name else None
  }

  /** `user.user_metadata?.role` */
  function MetadataRole(identity: Identity): Option<string> {
    if identity.metadata.Some? then identity.metadata.value.role else None
  }

  /** `user.email?.split('@')[0]` */
  function EmailLocalPart(email: Option<string>): (r: Option<string>)
    ensures r.Some? <==> email.Some?
    ensures r.Some? ==> r.value <= email.value && (forall j :: 0 <= j < |r.value| ==> r.value[j] != '@')
  {
    if email.None? then None
    else
      var parts := SplitOn(email.value, "@");
      JoinSplit(email.value, "@");
      FirstPieceIsPrefix(parts, "@");
      SplitPiecesAvoidSeparator(email.value, "@");
      assert forall j :: 0 <= j < |parts[0]| ==> parts[0][j] != "@"[0];
      Some(parts[0])
  }

  // ---------------------------------------------------------------------
  // getCurrentUser: building the AuthUser

  /** Every field takes the first usable source in the order the service
      consults them, falling back to a default. */
  function BuildAuthUser(identity: Identity, profile: Option<ProfileRow>,
                         createdNow: string, updatedNow: string): (r: AuthUser)
    ensures r.id == identity.id
    ensures r.email == (if identity.email.Some? then identity.email.value else "")
    ensures Truthy(ProfileField(profile, NameColumn)) ==> r.name == ProfileField(profile, NameColumn).value
    ensures (!Truthy(ProfileField(profile, NameColumn)) && Truthy(MetadataName(identity)))
              ==> r.name == MetadataName(identity).value
    ensures (!Truthy(ProfileField(profile, NameColumn)) && !Truthy(MetadataName(identity)))
              ==> r.name == OrElse(EmailLocalPart(identity.email), "")
    ensures r.role != ""
    ensures r.role == "ngo" <== !Truthy(ProfileField(profile, RoleColumn)) && !Truthy(MetadataRole(identity))
    ensures Truthy(ProfileField(profile, RoleColumn)) ==> r.role == ProfileField(profile, RoleColumn).value
    ensures (!Truthy(ProfileField(profile, RoleColumn)) && Truthy(MetadataRole(identity)))
              ==> r.role == MetadataRole(identity).value
    ensures r.profileComplete <==> profile.Some? && profile.value.profileComplete == Some(true)
    ensures r.verified <==> profile.Some? && profile.value.verified == Some(true)
    ensures r.phone == DropEmpty(ProfileField(profile, PhoneColumn))
    ensures r.avatarUrl == DropEmpty(ProfileField(profile, AvatarUrlColumn))
    ensures r.organizationName == DropEmpty(ProfileField(profile, OrganizationNameColumn))
    ensures r.bio == DropEmpty(ProfileField(profile, BioColumn))
    ensures profile.None? || profile.value.preferences.None? ==> r.preferences == DefaultPreferences
    ensures profile.Some? && profile.value.preferences.Some? ==> r.preferences == profile.value.preferences.value
    ensures r.createdAt == OrElse(ProfileField(profile, CreatedAtColumn), createdNow)
    ensures r.updatedAt == OrElse(ProfileField(profile, UpdatedAtColumn), updatedNow)
  {
    var name := OrElse(ProfileField(profile, NameColumn),
                OrElse(MetadataName(identity),
                OrElse(EmailLocalPart(identity.email), "")));
    var role := OrElse(ProfileField(profile, RoleColumn), OrElse(MetadataRole(identity), "ngo"));
    var prefs := if profile.Some? && profile.value.preferences.Some? then profile.value.preferences.value
                 else DefaultPreferences;
    AuthUser(
      identity.id,
      if identity.email.Some? then identity.email.value else "",
      name,
      role,
      profile.Some? && profile.value.profileComplete == Some(true),
      profile.Some? && profile.value.verified == Some(true),
      DropEmpty(ProfileField(profile, PhoneColumn)),
      DropEmpty(ProfileField(profile, AvatarUrlColumn)),
      DropEmpty(ProfileField(profile, OrganizationNameColumn)),
      DropEmpty(ProfileField(profile, BioColumn)),
      prefs,
      OrElse(ProfileField(profile, CreatedAtColumn), createdNow),
      OrElse(ProfileField(profile, UpdatedAtColumn), updatedNow))
  }

  /** With neither a profile name nor a metadata name, a user signed in as
      `local@domain` is called `local`. */
  lemma NameFallsBackToLocalPart(id: string, local: string, domain: string, profile: Option<ProfileRow>,
                                 createdNow: string, updatedNow: string)
    requires local != ""
    requires forall j :: 0 <= j < |local| ==> local[j] != '@'
    requires profile.None? || !Truthy(profile.value.name)
    ensures BuildAuthUser(Identity(id, Some(local + "@" + domain), None), profile, createdNow, updatedNow).name == local
  {
    SplitLeadingWord(local, "@", domain);
  }

  datatype UserLookup = UserLookup(user: Option<AuthUser>, error: Option<string>)

  /** getCurrentUser, given whether the client is configured, the provider's
      answer (`identity`, `error` message) and the profile row. */
  function CurrentUser(configured: bool, identity: Option<Identity>, error: Option<string>,
                       profile: Option<ProfileRow>, createdNow: string, updatedNow: string): (r: UserLookup)
    ensures r.user.Some? <==> configured && error.None? && identity.Some?
    ensures r.user.Some? ==> r.error.None? && r.user.value == BuildAuthUser(identity.value, profile, createdNow, updatedNow)
    ensures r.user.None? ==> r.error.Some? && r.error.value != ""
    ensures !configured ==> r.error == Some("Supabase not configured")
    ensures configured && Truthy(error) ==> r.error == error
  {
    if !configured then UserLookup(None, Some("Supabase not configured"))
    else if error.Some? || identity.None? then UserLookup(None, Some(OrElse(error, "Not authenticated")))
    else UserLookup(Some(BuildAuthUser(identity.value, profile, createdNow, updatedNow)), None)
  }

  // ---------------------------------------------------------------------
  // updateProfile: merging preferences and packing the update

  function Pick<T>(update: Option<T>, current: Option<T>): Option<T> {
    if update.Some? then update else current
  }

  /** `{ ...(current || {}), ...update }` */
  function MergePreferences(current: Option<Preferences>, update: Preferences): (r: Preferences)
    ensures update.notifications.Some? ==> r.notifications == update.notifications
    ensures update.theme.Some? ==> r.theme == update.theme
    ensures update.newsletter.Some? ==> r.newsletter == update.newsletter
    ensures update.notifications.None? ==> r.notifications == (if current.Some? then current.value.notifications else None)
    ensures update.theme.None? ==> r.theme == (if current.Some? then current.value.theme else None)
    ensures update.newsletter.None? ==> r.newsletter == (if current.Some? then current.value.newsletter else None)
  {
    var base := if current.Some? then current.value else NoPreferences;
    Preferences(Pick(update.notifications, base.notifications),
                Pick(update.theme, base.theme),
                Pick(update.newsletter, base.newsletter))
  }

  /** Applying the same update twice changes nothing more. */
  lemma {:induction false} MergeIdempotent(current: Option<Preferences>, update: Preferences)
    ensures MergePreferences(Some(MergePreferences(current, update)), update) == MergePreferences(current, update)
  {
    var once := MergePreferences(current, update);
    var twice := MergePreferences(Some(once), update);
    assert twice.notifications == once.notifications;
    assert twice.theme == once.theme;
    assert twice.newsletter == once.newsletter;
  }

  /** An update naming every key replaces the stored preferences outright. */
  lemma {:induction false} CompleteUpdateReplaces(current: Option<Preferences>, update: Preferences)
    requires update.notifications.Some? && update.theme.Some? && update.newsletter.Some?
    ensures MergePreferences(current, update) == update
  {
    var r := MergePreferences(current, update);
    assert r.notifications == update.notifications;
    assert r.theme == update.theme;
    assert r.newsletter == update.newsletter;
  }

  /** An update naming no key keeps what was stored (or `{}` when nothing was). */
  lemma {:induction false} EmptyUpdateKeeps(current: Option<Preferences>)
    ensures MergePreferences(current, NoPreferences) == (if current.Some? then current.value else NoPreferences)
  {
    var r := MergePreferences(current, NoPreferences);
    var base := if current.Some? then current.value else NoPreferences;
    assert r.notifications == base.notifications;
    assert r.theme == base.theme;
    assert r.newsletter == base.newsletter;
  }

  /** The fields `updateProfile` accepts; `None` is `undefined`. */
  datatype ProfileUpdate = ProfileUpdate(
    name: Option<string>,
    phone: Option<string>,
    avatarUrl: Option<string>,
    organizationName: Option<string>,
    bio: Option<string>,
    preferences: Option<Preferences>,
    profileComplete: Option<bool>)

  /** The object sent to the database; `None` is an absent key. */
  datatype UpdateData = UpdateData(
    updatedAt: string,
    name: Option<string>,
    phone: Option<string>,
    avatarUrl: Option<string>,
    organizationName: Option<string>,
    bio: Option<string>,
    profileComplete: Option<bool>,
    preferences: Option<Preferences>)

  /** The keys present in an update object. */
  function UpdateKeys(d: UpdateData): set<string> {
    {"updated_at"}
    + (if d.name.Some? then {"name"} else {})
    + (if d.phone.Some? then {"phone"} else {})
    + (if d.avatarUrl.Some? then {"avatar_url"} else {})
    + (if d.organizationName.Some? then {"organization_name"} else {})
    + (if d.bio.Some? then {"bio"} else {})
    + (if d.profileComplete.Some? then {"profile_complete"} else {})
    + (if d.preferences.Some? then {"preferences"} else {})
  }

  /** The keys an update defines. */
  function DefinedKeys(u: ProfileUpdate): set<string> {
    (if u.name.Some? then {"name"} else {})
    + (if u.phone.Some? then {"phone"} else {})
    + (if u.avatarUrl.Some? then {"avatar_url"} else {})
    + (if u.organizationName.Some? then {"organization_name"} else {})
    + (if u.bio.Some? then {"bio"} else {})
    + (if u.profileComplete.Some? then {"profile_complete"} else {})
    + (if u.preferences.Some? then {"preferences"} else {})
  }

  /** The keys of an update object are determined by which fields it holds. */
  lemma KeysFollowPresence(d: UpdateData, u: ProfileUpdate)
    requires d.name.Some? == u.name.Some? && d.phone.Some? == u.phone.Some?
    requires d.avatarUrl.Some? == u.avatarUrl.Some? && d.organizationName.Some? == u.organizationName.Some?
    requires d.bio.Some? == u.bio.Some? && d.profileComplete.Some? == u.profileComplete.Some?
    requires d.preferences.Some? == u.preferences.Some?
    ensures UpdateKeys(d) == {"updated_at"} + DefinedKeys(u)
  {
  }

  /** Builds the database update field by field, as the service does. */
  method BuildUpdateData(updates: ProfileUpdate, current: Option<Preferences>, now: string) returns (data: UpdateData)
    ensures UpdateKeys(data) == {"updated_at"} + DefinedKeys(updates)
    ensures data.updatedAt == now
    ensures data.name == updates.name && data.phone == updates.phone && data.avatarUrl == updates.avatarUrl
    ensures data.organizationName == updates.organizationName && data.bio == updates.bio
    ensures data.profileComplete == updates.profileComplete
    ensures data.preferences.Some? <==> updates.preferences.Some?
    ensures updates.preferences.Some? ==> data.preferences.value == MergePreferences(current, updates.preferences.value)
  {
    var merged := if updates.preferences.Some? then Some(MergePreferences(current, updates.preferences.value)) else None;
    var name, phone, avatarUrl, organizationName, bio := None, None, None, None, None;
    var profileComplete, preferences := None, None;
    if updates.name.Some? {
      name := updates.name;
    }
    if updates.phone.Some? {
      phone := updates.phone;
    }
    if updates.avatarUrl.Some? {
      avatarUrl := updates.avatarUrl;
    }
    if updates.organizationName.Some? {
      organizationName := updates.organizationName;
    }
    if updates.bio.Some? {
      bio := updates.bio;
    }
    if updates.profileComplete.Some? {
      profileComplete := updates.profileComplete;
    }
    if merged.Some? {
      preferences := merged;
    }
    data := UpdateData(now, name, phone, avatarUrl, organizationName, bio, profileComplete, preferences);
    KeysFollowPresence(data, updates);
  }

  // ---------------------------------------------------------------------
  // The deprecated password calls

  datatype LinkResult = LinkResult(success: bool, error: Option<string>)

  /** signInWithMagicLink, given whether the client is configured and the
      provider's error message. */
  function MagicLink(configured: bool, otpError: Option<string>): (r: LinkResult)
    ensures r.success <==> configured && otpError.None?
    ensures r.success ==> r.error.None?
    ensures !r.success ==> r.error.Some?
  {
    if !configured then LinkResult(false, Some("Supabase not configured"))
    else if otpError.Some? then LinkResult(false, otpError)
    else LinkResult(true, None)
  }

  const CheckEmailMessage := "Check your email for a magic link to sign in"

  datatype SignUpResult = SignUpResult(user: Option<AuthUser>, error: Option<string>)

  datatype SignInResult = SignInResult(user: Option<AuthUser>, token: Option<string>, error: Option<string>)

  /** signUp: the password flow is gone; it only sends a magic link. */
  function DeprecatedSignUp(link: LinkResult): (r: SignUpResult)
    ensures r.user.None?
    ensures link.success ==> r.error == Some(CheckEmailMessage)
    ensures !link.success ==> r.error == link.error
  {
    if link.success then SignUpResult(None, Some(CheckEmailMessage)) else SignUpResult(None, link.error)
  }

  /** signIn: likewise, with no token either. */
  function DeprecatedSignIn(link: LinkResult): (r: SignInResult)
    ensures r.user.None? && r.token.None?
    ensures link.success ==> r.error == Some(CheckEmailMessage)
    ensures !link.success ==> r.error == link.error
  {
    if link.success then SignInResult(None, None, Some(CheckEmailMessage)) else SignInResult(None, None, link.error)
  }

  /** Whatever the provider answers, the deprecated calls sign nobody in and
      always report a message. */
  lemma DeprecatedCallsNeverSignIn(configured: bool, otpError: Option<string>)
    ensures var up := DeprecatedSignUp(MagicLink(configured, otpError));
            up.user.None? && up.error.Some?
    ensures var inn := DeprecatedSignIn(MagicLink(configured, otpError));
            inn.user.None? && inn.token.None? && inn.error.Some?
  {
  }

  // ---------------------------------------------------------------------
  // uploadAvatar: the storage path

  function DigitChar(d: nat): char
    requires d < 10
  {
    "0123456789"[d]
  }

  predicate IsDigit(c: char) {
    '0' <= c <= '9'
  }

  /** The number a string of decimal digits spells, most significant first. */
  function DigitsValue(s: string): nat
    requires forall i :: 0 <= i < |s| ==> IsDigit(s[i])
  {
    if s == [] then 0
    else
      var d := s[|s| - 1];
      assert IsDigit(d);
      10 * DigitsValue(s[..|s| - 1]) + (d as int - '0' as int)
  }

  /** The decimal rendering of `Date.now()`: digits that spell the number,
      with no leading zero. */
  function DecimalString(n: nat): (r: string)
    ensures |r| >= 1
    ensures forall i :: 0 <= i < |r| ==> IsDigit(r[i])
    ensures DigitsValue(r) == n
    ensures r[0] == '0' ==> r == "0"
    decreases n
  {
    if n < 10 then [DigitChar(n)]
    else
      var r := DecimalString(n / 10) + [DigitChar(n % 10)];
      assert r[..|r| - 1] == DecimalString(n / 10);
      r
  }

  /** `file.name.split('.').pop()`: the text after the last dot, or the
      whole name when it has no dot. */
  function Extension(fileName: string): (r: string)
    ensures forall j :: 0 <= j < |r| ==> r[j] != '.'
    ensures |r| <= |fileName| && fileName[|fileName| - |r|..] == r
    ensures |r| < |fileName| ==> fileName[|fileName| - |r| - 1] == '.'
  {
    var parts := SplitOn(fileName, ".");
    SplitPiecesAvoidSeparator(fileName, ".");
    JoinSplit(fileName, ".");
    LastPieceIsSuffix(parts, ".");
    var last := parts[|parts| - 1];
    assert forall j :: 0 <= j < |last| ==> last[j] != "."[0];
    if |parts| == 1 then
      assert last == Join(parts, ".");
      last
    else
      assert fileName[|fileName| - |last| - 1..|fileName| - |last|] == ".";
      last
  }

  /** `avatars/${userId}-${Date.now()}.${fileExt}` */
  function AvatarPath(userId: string, timestamp: nat, fileName: string): (r: string)
    ensures r == "avatars/" + userId + "-" + DecimalString(timestamp) + "." + Extension(fileName)
  {
    "avatars/" + userId + "-" + DecimalString(timestamp) + "." + Extension(fileName)
  }

  /** The stored object keeps the uploaded file's extension. */
  lemma {:induction false} AvatarPathKeepsExtension(userId: string, timestamp: nat, fileName: string)
    ensures Extension(AvatarPath(userId, timestamp, fileName)) == Extension(fileName)
  {
    var ext := Extension(fileName);
    var stem := "avatars/" + userId + "-" + DecimalString(timestamp);
    assert AvatarPath(userId, timestamp, fileName) == stem + "." + ext;
    assert forall j :: 0 <= j < |ext| ==> ext[j] != "."[0];
    SplitLastPiece(stem, ".", ext);
  }

  /** A file name without a dot is taken whole as the extension. */
  lemma {:induction false} ExtensionOfDotlessName(fileName: string)
    requires forall j :: 0 <= j < |fileName| ==> fileName[j] != '.'
    ensures Extension(fileName) == fileName
  {
    assert forall j :: 0 <= j < |fileName| ==> fileName[j] != "."[0];
    SplitWithoutSeparator(fileName, ".");
  }
}
