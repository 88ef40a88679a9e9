/** The logic of the profile settings page (client/pages/ProfileSettings.tsx):
    the avatar fallback initials, the checks a picked avatar file must pass
    before it is uploaded, the preference switches filled in on load, and
    the page state the avatar handler updates. */
module ProfileSettings {
  import opened Text
  import opened AuthService

  // ---------------------------------------------------------------------
  // Initials

  /** The words of a split that contribute a letter: the non-empty ones
      (`n[0]` of an empty word is `undefined`, which joins as ""). */
  function NonEmptyWords(words: seq<string>): (r: seq<string>)
    ensures |r| <= |words|
    ensures forall k :: 0 <= k < |r| ==> r[k] != ""
    ensures forall k :: 0 <= k < |r| ==> r[k] in words
    ensures IsSubsequence(r, words)
    ensures forall w :: multiset(r)[w] == if w == "" then 0 else multiset(words)[w]
  {
    assert words != [] ==> words == [words[0]] + words[1..];
    if words == [] then []
    else if words[0] == "" then NonEmptyWords(words[1..])
    else [words[0]] + NonEmptyWords(words[1..])
  }

  /** `words.map(n => n[0]).join("")` */
  function FirstLetters(words: seq<string>): (r: string)
    ensures |r| == |NonEmptyWords(words)|
    ensures forall k :: 0 <= k < |r| ==> r[k] == NonEmptyWords(words)[k][0]
  {
    if words == [] then ""
    else if words[0] == "" then FirstLetters(words[1..])
    else [words[0][0]] + FirstLetters(words[1..])
  }

  function Min(a: int, b: int): int {
    if a <= b then a else b
  }

  /** getInitials: the upper-cased first letters of the space-separated
      words, at most two of them. */
  function GetInitials(name: string): (r: string)
    ensures |r| <= 2
    ensures |r| == Min(2, |NonEmptyWords(SplitOn(name, " "))|)
    ensures forall k :: 0 <= k < |r| ==> r[k] == UpperChar(NonEmptyWords(SplitOn(name, " "))[k][0])
  {
    var letters := Upper(FirstLetters(SplitOn(name, " ")));
    letters[..Min(2, |letters|)]
  }

  /** The fallback shown in the avatar: the initials of the name, or of "U"
      when the name is empty. */
  function AvatarFallback(name: string): (r: string)
    ensures name != "" ==> r == GetInitials(name)
    ensures name == "" ==> r == "U"
  {
    SplitWithoutSeparator("U", " ");
    assert NonEmptyWords(["U"]) == ["U"];
    GetInitials(if name == "" then "U" else name)
  }

  /** Initials never contain a space, since no word does. */
  lemma {:induction false} InitialsHaveNoSpace(name: string)
    ensures forall k :: 0 <= k < |GetInitials(name)| ==> GetInitials(name)[k] != ' '
  {
    var words := SplitOn(name, " ");
    SplitPiecesAvoidSeparator(name, " ");
    var r := GetInitials(name);
    forall k | 0 <= k < |r|
      ensures r[k] != ' '
    {
      var w := NonEmptyWords(words)[k];
      assert w in words;
      assert w[0] != " "[0];
    }
  }

  /** "Ada Lovelace" gives "AL": one letter from each of two words. */
  lemma {:induction false} TwoWordInitials(first: string, last: string)
    requires first != "" && last != ""
    requires forall j :: 0 <= j < |first| ==> first[j] != ' '
    requires forall j :: 0 <= j < |last| ==> last[j] != ' '
    ensures GetInitials(first + " " + last) == [UpperChar(first[0]), UpperChar(last[0])]
  {
    SplitLeadingWord(first, " ", last);
    SplitWithoutSeparator(last, " ");
    var words := SplitOn(first + " " + last, " ");
    assert words == [first, last];
    assert words[1..] == [last];
    assert words[1..][1..] == [];
    assert NonEmptyWords(words) == [first, last];
  }

  /** Leading spaces make empty words, which contribute nothing. */
  lemma {:induction false} LeadingSpaceIgnored(name: string)
    ensures GetInitials(" " + name) == GetInitials(name)
  {
    var s := " " + name;
    assert " " <= s;
    assert s[1..] == name;
    var words := SplitOn(s, " ");
    assert words == [""] + SplitOn(name, " ");
    assert words[1..] == SplitOn(name, " ");
    assert NonEmptyWords(words) == NonEmptyWords(SplitOn(name, " "));
    assert FirstLetters(words) == FirstLetters(SplitOn(name, " "));
  }

  // ---------------------------------------------------------------------
  // Avatar file checks

  datatype FileInfo = FileInfo(mimeType: string, size: nat)

  datatype AvatarCheck = InvalidType | TooLarge | Accepted

  const MaxAvatarBytes: nat := 5 * 1024 * 1024

  /** The type check comes first, then the size check. */
  function CheckAvatar(file: FileInfo): (r: AvatarCheck)
    ensures r == InvalidType <==> !("image/" <= file.mimeType)
    ensures r == TooLarge <==> "image/" <= file.mimeType && file.size > MaxAvatarBytes
    ensures r == Accepted <==> "image/" <= file.mimeType && file.size <= MaxAvatarBytes
  {
    if !("image/" <= file.mimeType) then InvalidType
    else if file.size > MaxAvatarBytes then TooLarge
    else Accepted
  }

  /** The limit is inclusive: an image of exactly 5 MiB is accepted, one
      byte more is refused. */
  lemma SizeLimitBoundary(mimeType: string)
    requires "image/" <= mimeType
    ensures CheckAvatar(FileInfo(mimeType, 5242880)) == Accepted
    ensures CheckAvatar(FileInfo(mimeType, 5242881)) == TooLarge
  {
  }

  // ---------------------------------------------------------------------
  // Preference switches

  datatype PreferenceForm = PreferenceForm(notifications: bool, newsletter: bool, theme: Theme)

  /** `user.preferences?.x ?? default`: only a missing key falls back; an
      explicit `false` is kept. */
  function LoadedPreferences(p: Preferences): (r: PreferenceForm)
    ensures r.notifications <==> p.notifications != Some(false)
    ensures r.newsletter <==> p.newsletter == Some(true)
    ensures p.theme.Some? ==> r.theme == p.theme.value
    ensures p.theme.None? ==> r.theme == System
  {
    PreferenceForm(
      if p.notifications.Some? then p.notifications.value else true,
      if p.newsletter.Some? then p.newsletter.value else false,
      if p.theme.Some? then p.theme.value else System)
  }

  /** handleSavePreferences sends all three switches. */
  function SavedPreferences(form: PreferenceForm): Preferences {
    Preferences(Some(form.notifications), Some(form.theme), Some(form.newsletter))
  }

  /** A user without a stored profile sees notifications on, newsletter off
      and the system theme. */
  lemma {:induction false} NewUserSeesDefaults(identity: Identity, createdNow: string, updatedNow: string)
    ensures LoadedPreferences(BuildAuthUser(identity, None, createdNow, updatedNow).preferences) == PreferenceForm(true, false, System)
  {
    assert BuildAuthUser(identity, None, createdNow, updatedNow).preferences == DefaultPreferences;
  }

  /** Saving the switches and loading the profile again shows the same
      switches, whatever was stored before. */
  lemma {:induction false} SaveThenLoad(form: PreferenceForm, stored: Option<Preferences>)
    ensures LoadedPreferences(MergePreferences(stored, SavedPreferences(form))) == form
  {
    CompleteUpdateReplaces(stored, SavedPreferences(form));
  }

  // ---------------------------------------------------------------------
  // The avatar handler

  datatype UploadResult = UploadResult(url: Option<string>, error: Option<string>)

  /** The toast the handler raises, if any. */
  datatype Notice = Silent | InvalidFileType | FileTooLarge | UploadFailed(message: string) | AvatarUpdated

  class ProfilePage {
    var avatarUrl: string
    var uploadingAvatar: bool

    constructor ()
      ensures avatarUrl == "" && !uploadingAvatar
    {
      avatarUrl := "";
      uploadingAvatar := false;
    }

    /** handleAvatarChange for the picked file (if any) and the answer the
        upload gives when it is requested. `uploaded` records whether the
        upload was requested: a missing or refused file never reaches it. */
    method HandleAvatarChange(file: Option<FileInfo>, upload: UploadResult) returns (notice: Notice, uploaded: bool)
      modifies this
      ensures uploaded <==> file.Some? && CheckAvatar(file.value) == Accepted
      ensures file.None? ==> notice == Silent && avatarUrl == old(avatarUrl) && uploadingAvatar == old(uploadingAvatar)
      ensures file.Some? && CheckAvatar(file.value) == InvalidType ==>
                notice == InvalidFileType && avatarUrl == old(avatarUrl) && uploadingAvatar == old(uploadingAvatar)
      ensures file.Some? && CheckAvatar(file.value) == TooLarge ==>
                notice == FileTooLarge && avatarUrl == old(avatarUrl) && uploadingAvatar == old(uploadingAvatar)
      ensures file.Some? && CheckAvatar(file.value) == Accepted ==> !uploadingAvatar
      ensures file.Some? && CheckAvatar(file.value) == Accepted && Truthy(upload.error) ==>
                notice == UploadFailed(upload.error.value) && avatarUrl == old(avatarUrl)
      ensures file.Some? && CheckAvatar(file.value) == Accepted && !Truthy(upload.error) ==>
                avatarUrl == OrElse(upload.url, old(avatarUrl))
                && notice == (if Truthy(upload.url) then AvatarUpdated else Silent)
      ensures avatarUrl != old(avatarUrl) ==> file.Some? && CheckAvatar(file.value) == Accepted
    {
      if file.None? {
        return Silent, false;
      }
      if !("image/" <= file.value.mimeType) {
        return InvalidFileType, false;
      }
      if file.value.size > MaxAvatarBytes {
        return FileTooLarge, false;
      }
      uploadingAvatar := true;
      uploaded := true;
      notice := Silent;
      if Truthy(upload.error) {
        notice := UploadFailed(upload.error.value);
      } else if Truthy(upload.url) {
        avatarUrl := upload.url.value;
        notice := AvatarUpdated;
      }
      uploadingAvatar := false;
    }
  }
}
