/**
 * The profile-editing screen: the name rule, the character filter applied while typing,
 * the player-UID filter, the "dirty" and "can save" conditions, and the save handler.
 *
 * The pure rules come first, as functions over the screen's field values; the screen itself is
 * the class `EditProfileScreen` at the end, whose methods are the event handlers.
 */
module EditProfile {
  import opened Options
  import opened JsStrings

  // ---------------------------------------------------------------------------------------
  // Character classes of the name rule
  // ---------------------------------------------------------------------------------------

  /** `a-zA-Z`. */
  predicate IsLatinLetter(c: char) {
    ('a' <= c && c <= 'z') || ('A' <= c && c <= 'Z')
  }

  /** U+0980 to U+09FF: the whole Bengali block, signs and digits included. */
  predicate IsBengali(c: char) {
    0x0980 <= c as int <= 0x09FF
  }

  /** A name letter: a Latin letter or a Bengali-block character. */
  predicate IsNameLetter(c: char) {
    IsLatinLetter(c) || IsBengali(c)
  }

  /** What the input filter keeps: name letters and white space. */
  predicate IsNameChar(c: char) {
    IsNameLetter(c) || IsSpace(c)
  }

  /** What `.` matches in a regular expression without the `u` flag: one code unit, not a line terminator. */
  predicate IsRegexDot(c: char) {
    IsBmp(c) && !IsLineTerminator(c)
  }

  const MinNameLength := 3
  const MaxNameLength := 25
  const InvalidNameMessage := "Invalid name"
  const SaveFailedMessage := "Failed to update profile"
  const DataUrlScheme := "data:"

  // ---------------------------------------------------------------------------------------
  // The name rule
  // ---------------------------------------------------------------------------------------

  /**
   * The second test: some position starts three equal code units that a regular-expression `.` matches.
   * A character outside the Basic Multilingual Plane is a surrogate pair, and surrogate pairs
   * never give three equal code units in a row, so only single-unit characters can form a run.
   */
  predicate HasTripleRun(t: string)
    decreases |t|
  {
    |t| >= 3 && ((IsRegexDot(t[0]) && t[0] == t[1] && t[1] == t[2]) || HasTripleRun(t[1..]))
  }

  /**
   * The third test: `t` is, in full, one or more name letters followed by any number of groups of
   * one white-space character and one or more name letters; read as the grammar
   * W ::= L | L W | L S W, where L is a name letter and S a white-space character.
   */
  predicate MatchesNamePattern(t: string)
    decreases |t|
  {
    |t| > 0 && IsNameLetter(t[0]) &&
    (|t| == 1
     || (IsNameLetter(t[1]) && MatchesNamePattern(t[1..]))
     || (IsSpace(t[1]) && MatchesNamePattern(t[2..])))
  }

  /** `validateNameRule`: the length test, the repetition test and the pattern test, in that order, on the trimmed value. */
  predicate ValidateNameRule(val: string) {
    var t := Trim(val);
    if Utf16Length(t) < MinNameLength || Utf16Length(t) > MaxNameLength then false
    else if HasTripleRun(t) then false
    else MatchesNamePattern(t)
  }

  /**
   * The shape of an accepted name, stated without regular expressions: it starts and ends with a
   * name letter, holds only name letters and white space, and never two white-space characters
   * side by side.
   */
  predicate WellSpaced(t: string) {
    |t| > 0 && IsNameLetter(t[0]) && IsNameLetter(t[|t| - 1]) &&
    (forall i :: 0 <= i < |t| ==> IsNameLetter(t[i]) || IsSpace(t[i])) &&
    (forall i :: 0 <= i < |t| - 1 ==> !(IsSpace(t[i]) && IsSpace(t[i + 1])))
  }

  /** No character, of any kind, occurs three times in a row. */
  predicate NoCharThriceInARow(t: string) {
    forall i :: 0 <= i < |t| - 2 ==> !(t[i] == t[i + 1] && t[i + 1] == t[i + 2])
  }

  lemma {:induction false} PatternIffWellSpaced(t: string)
    ensures MatchesNamePattern(t) <==> WellSpaced(t)
    decreases |t|
  {
    if |t| >= 2 {
      var u := t[1..];
      PatternIffWellSpaced(u);
      if IsNameLetter(t[1]) {
        if WellSpaced(u) && IsNameLetter(t[0]) {
          forall i | 0 <= i < |t| - 1 ensures !(IsSpace(t[i]) && IsSpace(t[i + 1])) {
            if i > 0 { assert t[i] == u[i - 1] && t[i + 1] == u[i]; }
          }
          assert WellSpaced(t);
        }
        if WellSpaced(t) {
          forall i | 0 <= i < |u| - 1 ensures !(IsSpace(u[i]) && IsSpace(u[i + 1])) {
            assert u[i] == t[i + 1] && u[i + 1] == t[i + 2];
          }
          assert WellSpaced(u);
        }
      } else if IsSpace(t[1]) {
        var w := t[2..];
        PatternIffWellSpaced(w);
        if WellSpaced(w) && IsNameLetter(t[0]) {
          forall i | 0 <= i < |t| - 1 ensures !(IsSpace(t[i]) && IsSpace(t[i + 1])) {
            if i > 1 { assert t[i] == w[i - 2] && t[i + 1] == w[i - 1]; }
            if i == 1 { assert t[2] == w[0]; }
          }
          forall i | 0 <= i < |t| ensures IsNameLetter(t[i]) || IsSpace(t[i]) {
            if i > 1 { assert t[i] == w[i - 2]; }
          }
          assert t[|t| - 1] == w[|w| - 1];
          assert WellSpaced(t);
        }
        if WellSpaced(t) {
          assert |t| > 2 && !IsSpace(t[2]);
          forall i | 0 <= i < |w| - 1 ensures !(IsSpace(w[i]) && IsSpace(w[i + 1])) {
            assert w[i] == t[i + 2] && w[i + 1] == t[i + 3];
          }
          forall i | 0 <= i < |w| ensures IsNameLetter(w[i]) || IsSpace(w[i]) {
            assert w[i] == t[i + 2];
          }
          assert WellSpaced(w);
        }
      } else {
        assert !MatchesNamePattern(t);
        assert !WellSpaced(t);
      }
    }
  }

  /** The search of `HasTripleRun` finds every run of three equal `.`-characters. */
  lemma {:induction false} TripleRunFound(t: string, i: nat)
    requires i + 2 < |t| && IsRegexDot(t[i]) && t[i] == t[i + 1] && t[i + 1] == t[i + 2]
    ensures HasTripleRun(t)
    decreases i
  {
    if i > 0 {
      TripleRunFound(t[1..], i - 1);
    }
  }

  /** What `HasTripleRun` finds is a run of three equal characters. */
  lemma {:induction false} TripleRunIsRun(t: string)
    requires HasTripleRun(t)
    ensures !NoCharThriceInARow(t)
    decreases |t|
  {
    if !(IsRegexDot(t[0]) && t[0] == t[1] && t[1] == t[2]) {
      var u := t[1..];
      TripleRunIsRun(u);
      var j :| 0 <= j < |u| - 2 && u[j] == u[j + 1] && u[j + 1] == u[j + 2];
      assert t[j + 1] == u[j] && t[j + 2] == u[j + 1] && t[j + 3] == u[j + 2];
    }
  }

  /**
   * What `validateNameRule` accepts, in plain terms: the trimmed value has 3 to 25 characters,
   * is runs of name letters separated by single white-space characters, and has no character
   * three times in a row.  Both directions hold.
   */
  lemma ValidatedNameShape(val: string)
    ensures ValidateNameRule(val) <==>
      var t := Trim(val);
      MinNameLength <= |t| <= MaxNameLength && WellSpaced(t) && NoCharThriceInARow(t)
  {
    var t := Trim(val);
    PatternIffWellSpaced(t);
    if WellSpaced(t) {
      assert AllBmp(t);
      if HasTripleRun(t) {
        TripleRunIsRun(t);
      }
      if !NoCharThriceInARow(t) {
        var i :| 0 <= i < |t| - 2 && t[i] == t[i + 1] && t[i + 1] == t[i + 2];
        assert IsNameLetter(t[i]);
        TripleRunFound(t, i);
      }
    }
  }

  /** `validateNameRule` is false whenever the trimmed value is shorter than 3 or longer than 25 code units. */
  lemma NameLengthChecked(val: string)
    requires Utf16Length(Trim(val)) < MinNameLength || Utf16Length(Trim(val)) > MaxNameLength
    ensures !ValidateNameRule(val)
  {
  }

  /** An accepted name, once trimmed, has no white space at either end and none doubled. */
  lemma AcceptedNameHasNoStraySpace(val: string)
    requires ValidateNameRule(val)
    ensures var t := Trim(val);
      t != [] && !IsSpace(t[0]) && !IsSpace(t[|t| - 1]) &&
      forall i :: 0 <= i < |t| - 1 ==> !(IsSpace(t[i]) && IsSpace(t[i + 1]))
  {
    ValidatedNameShape(val);
  }

  /** An accepted name, once trimmed, contains no character three times in a row. */
  lemma AcceptedNameHasNoTriple(val: string)
    requires ValidateNameRule(val)
    ensures NoCharThriceInARow(Trim(val))
  {
    ValidatedNameShape(val);
  }

  /** The rule depends only on the trimmed value, so a trimmed accepted name is accepted again. */
  lemma TrimmedNameStillValid(val: string)
    requires ValidateNameRule(val)
    ensures ValidateNameRule(Trim(val))
  {
    TrimIdempotent(val);
  }

  // ---------------------------------------------------------------------------------------
  // The input filter of the name field
  // ---------------------------------------------------------------------------------------

  /** `b` contains the characters of `a`, in order, possibly with others between them. */
  predicate IsSubsequence(a: string, b: string)
    decreases |b|
  {
    a == [] || (b != [] && ((a[0] == b[0] && IsSubsequence(a[1..], b[1..])) || IsSubsequence(a, b[1..])))
  }

  /** The filter of `handleNameChange`: every character that is neither a name letter nor white space is removed. */
  function Sanitize(s: string): (r: string)
    ensures forall i :: 0 <= i < |r| ==> IsNameChar(r[i])
    ensures IsSubsequence(r, s)
    decreases |s|
  {
    if s == [] then []
    else
      var rest := Sanitize(s[1..]);
      if IsNameChar(s[0]) then
        assert ([s[0]] + rest)[1..] == rest;
        [s[0]] + rest
      else rest
  }

  /** A string made only of allowed characters passes the filter untouched. */
  lemma {:induction false} SanitizeKeepsClean(s: string)
    requires forall i :: 0 <= i < |s| ==> IsNameChar(s[i])
    ensures Sanitize(s) == s
    decreases |s|
  {
    if s != [] {
      SanitizeKeepsClean(s[1..]);
      assert [s[0]] + s[1..] == s;
    }
  }

  /** The filter changes a string exactly when the string holds a character it removes. */
  lemma {:induction false} SanitizeFixedIff(s: string)
    ensures Sanitize(s) == s <==> forall i :: 0 <= i < |s| ==> IsNameChar(s[i])
  {
    if forall i :: 0 <= i < |s| ==> IsNameChar(s[i]) {
      SanitizeKeepsClean(s);
    }
  }

  /** Filtering twice is filtering once. */
  lemma {:induction false} SanitizeIdempotent(s: string)
    ensures Sanitize(Sanitize(s)) == Sanitize(s)
  {
    SanitizeKeepsClean(Sanitize(s));
  }

  /** The filter works character by character: it distributes over concatenation. */
  lemma {:induction false} SanitizeConcat(a: string, b: string)
    ensures Sanitize(a + b) == Sanitize(a) + Sanitize(b)
    decreases |a|
  {
    if a == [] {
      assert a + b == b;
    } else {
      assert (a + b)[0] == a[0] && (a + b)[1..] == a[1..] + b;
      SanitizeConcat(a[1..], b);
    }
  }

  /** Every allowed character keeps all its occurrences; every other character loses all of them. */
  lemma {:induction false} SanitizeCounts(s: string, c: char)
    ensures multiset(Sanitize(s))[c] == if IsNameChar(c) then multiset(s)[c] else 0
    decreases |s|
  {
    if s != [] {
      SanitizeCounts(s[1..], c);
      assert s == [s[0]] + s[1..];
      assert multiset(s) == multiset([s[0]]) + multiset(s[1..]);
    }
  }

  // ---------------------------------------------------------------------------------------
  // The player-UID filter
  // ---------------------------------------------------------------------------------------

  /** The UID test: the value is empty or made of ASCII digits only. */
  predicate IsDigitString(s: string) {
    forall i :: 0 <= i < |s| ==> IsAsciiDigit(s[i])
  }

  /**
   * The value `handleUidChange(val)` leaves in `playerUid`: a non-empty value with a non-digit is
   * ignored, anything else replaces the current value.
   */
  function NextPlayerUid(current: string, val: string): (r: string)
    ensures IsDigitString(val) ==> r == val
    ensures !IsDigitString(val) ==> r == current
    ensures IsDigitString(current) ==> IsDigitString(r)
  {
    if val != "" && !IsDigitString(val) then current else val
  }

  // ---------------------------------------------------------------------------------------
  // The signed-in user, the records written on save, and the save conditions
  // ---------------------------------------------------------------------------------------

  /** The part of the signed-in user the screen reads; absent optional fields are `None`. */
  datatype User = User(uid: string, name: string, playerUid: Option<string>, avatarUrl: Option<string>)

  /** The fields written to the user's database record. */
  datatype UserUpdate = UserUpdate(name: string, playerUid: string, avatarUrl: string)

  /** A database update: the record path and the fields written there. */
  datatype DatabaseWrite = DatabaseWrite(path: string, updates: UserUpdate)

  /** The authentication-profile update; `photoUrl` is `None` when the field is left out. */
  datatype ProfileUpdate = ProfileUpdate(displayName: string, photoUrl: Option<string>)

  /** `user.playerUid || ''`. */
  function InitialPlayerUid(user: User): string {
    user.playerUid.GetOr("")
  }

  /** `user.avatarUrl || DEFAULT_AVATAR_URL`: a missing or empty avatar falls back to the default. */
  function InitialAvatarUrl(user: User, defaultAvatarUrl: string): string {
    match user.avatarUrl
    case Some(url) => if url != "" then url else defaultAvatarUrl
    case None => defaultAvatarUrl
  }

  /**
   * `isDirty`: the trimmed name, the player UID or the avatar differs from the user's.  The avatar
   * is compared with the raw `user.avatarUrl`, so a missing one (`undefined`) never equals it.
   */
  predicate FormIsDirty(user: User, name: string, playerUid: string, avatarUrl: string) {
    Trim(name) != user.name || playerUid != InitialPlayerUid(user) || user.avatarUrl != Some(avatarUrl)
  }

  /** `canSave`. */
  predicate FormCanSave(user: User, name: string, playerUid: string, avatarUrl: string) {
    FormIsDirty(user, name, playerUid, avatarUrl) && ValidateNameRule(name)
  }

  /** The guard of `handleSave`: no save in progress, a user id, and a savable form. */
  predicate SaveProceeds(isSaving: bool, uid: string, canSave: bool) {
    !isSaving && uid != "" && canSave
  }

  /** The `disabled` condition of the save button. */
  predicate SaveButtonDisabled(isSaving: bool, showSuccess: bool, canSave: bool) {
    isSaving || showSuccess || !canSave
  }

  /** `'users/' + user.uid`. */
  function UserPath(uid: string): string {
    "users/" + uid
  }

  /** The fields written on save: the trimmed name, the player UID and the avatar as they stand. */
  function UpdatesFor(name: string, playerUid: string, avatarUrl: string): UserUpdate {
    UserUpdate(Trim(name), playerUid, avatarUrl)
  }

  /** The avatar goes to the authentication profile only when it is non-empty and not a `data:` URL. */
  function PhotoUrlFor(avatarUrl: string): Option<string> {
    if avatarUrl != "" && !StartsWith(avatarUrl, DataUrlScheme) then Some(avatarUrl) else None
  }

  /** The authentication-profile update issued after a successful database write of `u`. */
  function ProfileUpdateFor(u: UserUpdate): ProfileUpdate {
    ProfileUpdate(u.name, PhotoUrlFor(u.avatarUrl))
  }

  /**
   * The authentication profile agrees with the database record it follows: the same display name,
   * and a photo only when it is the recorded avatar.  A missing photo means the avatar is empty or
   * a `data:` URL, so an uploaded image held inline never reaches the profile.
   */
  lemma ProfileMirrorsRecord(u: UserUpdate)
    ensures ProfileUpdateFor(u).displayName == u.name
    ensures ProfileUpdateFor(u).photoUrl.Some? ==> ProfileUpdateFor(u).photoUrl.value == u.avatarUrl
    ensures ProfileUpdateFor(u).photoUrl == None <==> u.avatarUrl == "" || StartsWith(u.avatarUrl, DataUrlScheme)
    ensures forall rest :: ProfileUpdateFor(UserUpdate(u.name, u.playerUid, DataUrlScheme + rest)).photoUrl == None
  {
  }

  /**
   * The screen opens dirty for a user without an avatar, or with an empty one while the default is
   * not empty: the field starts at the default avatar, which is compared with the raw one.
   */
  lemma MissingAvatarStartsDirty(user: User, defaultAvatarUrl: string)
    requires user.avatarUrl == None || (user.avatarUrl == Some("") && defaultAvatarUrl != "")
    ensures FormIsDirty(user, user.name, InitialPlayerUid(user), InitialAvatarUrl(user, defaultAvatarUrl))
    ensures ValidateNameRule(user.name) ==>
      FormCanSave(user, user.name, InitialPlayerUid(user), InitialAvatarUrl(user, defaultAvatarUrl))
  {
  }

  /** For a user with an avatar and an already-trimmed name, the freshly opened form is clean and cannot be saved. */
  lemma UntouchedFormIsClean(user: User, defaultAvatarUrl: string)
    requires user.avatarUrl.Some? && user.avatarUrl.value != ""
    requires Trim(user.name) == user.name
    ensures !FormIsDirty(user, user.name, InitialPlayerUid(user), InitialAvatarUrl(user, defaultAvatarUrl))
    ensures !FormCanSave(user, user.name, InitialPlayerUid(user), InitialAvatarUrl(user, defaultAvatarUrl))
  {
  }

  /** When the button is enabled and there is a user id, submitting starts a save; the guard itself ignores `showSuccess`. */
  lemma EnabledButtonStartsSave(isSaving: bool, showSuccess: bool, canSave: bool, uid: string)
    ensures !SaveButtonDisabled(isSaving, showSuccess, canSave) && uid != "" ==> SaveProceeds(isSaving, uid, canSave)
    ensures SaveProceeds(isSaving, uid, canSave) <==> !SaveButtonDisabled(isSaving, false, canSave) && uid != ""
  {
  }

  /** A form that can be saved writes a name that obeys the name rule, in its plain form. */
  lemma SavedNameObeysRule(user: User, name: string, playerUid: string, avatarUrl: string)
    requires FormCanSave(user, name, playerUid, avatarUrl)
    ensures var n := UpdatesFor(name, playerUid, avatarUrl).name;
      ValidateNameRule(n) && MinNameLength <= |n| <= MaxNameLength && WellSpaced(n) && NoCharThriceInARow(n)
  {
    TrimmedNameStillValid(name);
    ValidatedNameShape(name);
  }

  // ---------------------------------------------------------------------------------------
  // The screen
  // ---------------------------------------------------------------------------------------

  /**
   * The component's state.  `pending` is the database write of the save in progress: the values
   * captured by the handler when it started, which its continuation uses after the write completes.
   */
  class EditProfileScreen {
    const user: User
    var name: string
    var playerUid: string
    var avatarUrl: string
    var isSaving: bool
    var showSuccess: bool
    var nameError: string
    var error: string
    var pending: Option<DatabaseWrite>

    /** A save is in progress exactly when a write to the user's record is pending, and the error is then clear. */
    ghost predicate Valid()
      reads this
    {
      (isSaving <==> pending.Some?) &&
      (isSaving ==> error == "" && user.uid != "" && pending.value.path == UserPath(user.uid))
    }

    constructor (user: User, defaultAvatarUrl: string)
      ensures Valid()
      ensures this.user == user && name == user.name && playerUid == InitialPlayerUid(user)
      ensures avatarUrl == InitialAvatarUrl(user, defaultAvatarUrl)
      ensures !isSaving && !showSuccess && nameError == "" && error == "" && pending == None
    {
      this.user := user;
      name := user.name;
      playerUid := InitialPlayerUid(user);
      avatarUrl := InitialAvatarUrl(user, defaultAvatarUrl);
      isSaving := false;
      showSuccess := false;
      nameError := "";
      error := "";
      pending := None;
    }

    /** `isNameValid`. */
    predicate IsNameValid()
      reads this
    {
      ValidateNameRule(name)
    }

    /** `canSave`. */
    predicate CanSave()
      reads this
    {
      FormCanSave(user, name, playerUid, avatarUrl)
    }

    /** Whether the save button is disabled. */
    predicate SaveDisabled()
      reads this
    {
      SaveButtonDisabled(isSaving, showSuccess, CanSave())
    }

    /** `handleNameChange`: the filtered value becomes the name and the name error is cleared. */
    method HandleNameChange(val: string)
      requires Valid()
      modifies this
      ensures Valid()
      ensures name == Sanitize(val) && nameError == ""
      ensures playerUid == old(playerUid) && avatarUrl == old(avatarUrl) && isSaving == old(isSaving)
      ensures showSuccess == old(showSuccess) && error == old(error) && pending == old(pending)
    {
      name := Sanitize(val);
      nameError := "";
    }

    /** `handleNameBlur`: an invalid name sets the name error; a valid one leaves it as it was. */
    method HandleNameBlur()
      requires Valid()
      modifies this
      ensures Valid()
      ensures nameError == if IsNameValid() then old(nameError) else InvalidNameMessage
      ensures name == old(name) && playerUid == old(playerUid) && avatarUrl == old(avatarUrl)
      ensures isSaving == old(isSaving) && showSuccess == old(showSuccess) && error == old(error)
      ensures pending == old(pending)
    {
      if !ValidateNameRule(name) {
        nameError := InvalidNameMessage;
      }
    }

    /** `handleUidChange`: only an empty or all-digit value is taken. */
    method HandleUidChange(val: string)
      requires Valid()
      modifies this
      ensures Valid()
      ensures playerUid == NextPlayerUid(old(playerUid), val)
      ensures IsDigitString(old(playerUid)) ==> IsDigitString(playerUid)
      ensures name == old(name) && avatarUrl == old(avatarUrl) && nameError == old(nameError)
      ensures isSaving == old(isSaving) && showSuccess == old(showSuccess) && error == old(error)
      ensures pending == old(pending)
    {
      if val != "" && !IsDigitString(val) {
        return;
      }
      playerUid := val;
    }

    /**
     * `handleSave`, up to the database write: when the guard fails nothing changes and nothing is
     * written; otherwise the error is cleared, saving starts and the write of the trimmed name, the
     * player UID and the avatar to the user's record is issued.
     */
    method HandleSave() returns (write: Option<DatabaseWrite>)
      requires Valid()
      modifies this
      ensures Valid()
      ensures !SaveProceeds(old(isSaving), user.uid, old(CanSave())) ==>
        write == None && isSaving == old(isSaving) && error == old(error) && pending == old(pending)
      ensures SaveProceeds(old(isSaving), user.uid, old(CanSave())) ==>
        write == Some(DatabaseWrite(UserPath(user.uid), UpdatesFor(name, playerUid, avatarUrl))) &&
        isSaving && error == "" && pending == write
      ensures !old(SaveDisabled()) && user.uid != "" ==> write.Some?
      ensures name == old(name) && playerUid == old(playerUid) && avatarUrl == old(avatarUrl)
      ensures nameError == old(nameError) && showSuccess == old(showSuccess)
    {
      if isSaving || user.uid == "" || !CanSave() {
        return None;
      }
      error := "";
      isSaving := true;
      write := Some(DatabaseWrite(UserPath(user.uid), UpdatesFor(name, playerUid, avatarUrl)));
      pending := write;
    }

    /**
     * The rest of `handleSave`, once the database write has completed.  On success, and when a user
     * is signed in to the authentication service, the profile update is issued; its own outcome is
     * ignored.  Either way saving ends: with the success flag after a successful write, with the
     * error message after a failed one.
     */
    method FinishSave(dbSucceeded: bool, signedIn: bool) returns (profile: Option<ProfileUpdate>)
      requires Valid() && isSaving
      modifies this
      ensures Valid()
      ensures !isSaving && pending == None
      ensures profile == if dbSucceeded && signedIn then Some(ProfileUpdateFor(old(pending).value.updates)) else None
      ensures profile.Some? ==> profile.value.displayName == old(pending).value.updates.name
      ensures profile.Some? && profile.value.photoUrl.Some? ==>
        profile.value.photoUrl.value == old(pending).value.updates.avatarUrl &&
        !StartsWith(profile.value.photoUrl.value, DataUrlScheme)
      ensures dbSucceeded ==> showSuccess && error == ""
      ensures !dbSucceeded ==> showSuccess == old(showSuccess) && error == SaveFailedMessage
      ensures name == old(name) && playerUid == old(playerUid) && avatarUrl == old(avatarUrl)
      ensures nameError == old(nameError)
    {
      profile := None;
      if dbSucceeded {
        if signedIn {
          profile := Some(ProfileUpdateFor(pending.value.updates));
        }
        isSaving := false;
        showSuccess := true;
      } else {
        error := SaveFailedMessage;
        isSaving := false;
      }
      pending := None;
    }
  }
}
